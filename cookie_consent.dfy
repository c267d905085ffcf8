/** The cookie-consent banner (src/components/custom/coockie-consent.tsx): whether it is
    open, whether it is hidden (the component's `hide`), the consent cookie it writes, and
    the delayed hides it schedules. */
module CookieConsent {
  import opened Wrappers
  import opened Text
  import opened Assoc

  /** The cookie store as `name=value` pairs in creation order; writing a cookie replaces
      the value of an existing name in place or appends a new one. */
  type Jar = Entries

  /** The `k=v` strings of a jar. */
  function Pairs(jar: Jar): (ps: seq<string>)
    ensures |ps| == |jar|
    ensures forall i :: 0 <= i < |jar| ==> ps[i] == jar[i].0 + "=" + jar[i].1
  {
    if |jar| == 0 then [] else [jar[0].0 + "=" + jar[0].1] + Pairs(jar[1..])
  }

  /** `document.cookie` as read: the pairs joined by `"; "`. */
  function CookieText(jar: Jar): (r: string)
    ensures |jar| == 0 ==> r == ""
    ensures |jar| > 0 ==> jar[0].0 + "=" + jar[0].1 <= r
  {
    Join(Pairs(jar), "; ")
  }

  /** `document.cookie.includes('cookieConsent=true')` (coockie-consent.tsx:42). */
  predicate ConsentGiven(jar: Jar)
    ensures |jar| == 0 ==> !ConsentGiven(jar)
  {
    Contains(CookieText(jar), "cookieConsent=true")
  }

  /** The cookie `accept` writes (coockie-consent.tsx:20); the expiry date is metadata and
      does not show in `document.cookie`. */
  function WriteConsent(jar: Jar): (r: Jar)
    ensures Lookup(r, "cookieConsent") == Some("true")
  {
    AssignLookup(jar, "cookieConsent", "true", "cookieConsent");
    Assign(jar, "cookieConsent", "true")
  }

  /** Every cookie of the jar shows in `document.cookie` as `name=value`. */
  lemma CookieShowsEntry(jar: Jar, i: nat)
    requires i < |jar|
    ensures Contains(CookieText(jar), jar[i].0 + "=" + jar[i].1)
  {
    JoinContainsPart(Pairs(jar), "; ", i);
  }

  /** A cookie just written shows in `document.cookie` as `name=value`. */
  lemma WrittenCookieSeen(jar: Jar, name: string, value: string)
    ensures Contains(CookieText(Assign(jar, name, value)), name + "=" + value)
  {
    var after := Assign(jar, name, value);
    AssignLookup(jar, name, value, name);
    LookupFound(after, name);
    var i :| 0 <= i < |after| && after[i] == (name, value);
    CookieShowsEntry(after, i);
  }

  /** After accepting, the consent cookie is present whatever the store held before. */
  lemma AcceptedConsentIsSeen(jar: Jar)
    ensures ConsentGiven(WriteConsent(jar))
  {
    WrittenCookieSeen(jar, "cookieConsent", "true");
    assert "cookieConsent" + "=" + "true" == "cookieConsent=true";
  }

  /** One mounted banner. `pendingHides` counts the 700 ms hide timers not yet fired;
      `accepted` and `declined` count the callback calls. */
  class Banner {
    const demo: bool
    const hasAcceptCallback: bool
    const hasDeclineCallback: bool
    var isOpen: bool
    var hidden: bool
    var jar: Jar
    var pendingHides: nat
    var accepted: nat
    var declined: nat

    /** The first render: closed and not hidden (coockie-consent.tsx:14-15). */
    constructor (demo: bool, hasAcceptCallback: bool, hasDeclineCallback: bool, jar: Jar)
      ensures this.demo == demo && this.hasAcceptCallback == hasAcceptCallback && this.hasDeclineCallback == hasDeclineCallback
      ensures !isOpen && !hidden && this.jar == jar
      ensures pendingHides == 0 && accepted == 0 && declined == 0
    {
      this.demo := demo;
      this.hasAcceptCallback := hasAcceptCallback;
      this.hasDeclineCallback := hasDeclineCallback;
      isOpen := false;
      hidden := false;
      this.jar := jar;
      pendingHides := 0;
      accepted := 0;
      declined := 0;
    }

    /** The mount effect (coockie-consent.tsx:39-53): open, unless the consent cookie is
        already there outside demo mode, in which case close again and schedule a hide. */
    method Mount()
      modifies this
      ensures isOpen == !(ConsentGiven(old(jar)) && !demo)
      ensures pendingHides == old(pendingHides) + (if ConsentGiven(old(jar)) && !demo then 1 else 0)
      ensures hidden == old(hidden) && jar == old(jar)
      ensures accepted == old(accepted) && declined == old(declined)
    {
      isOpen := true;
      if ConsentGiven(jar) {
        if !demo {
          isOpen := false;
          pendingHides := pendingHides + 1;
        }
      }
    }

    /** `accept` (coockie-consent.tsx:18-27). */
    method Accept()
      modifies this
      ensures !isOpen && hidden == old(hidden)
      ensures jar == WriteConsent(old(jar)) && ConsentGiven(jar)
      ensures pendingHides == old(pendingHides) + 1
      ensures accepted == old(accepted) + (if hasAcceptCallback then 1 else 0) && declined == old(declined)
    {
      isOpen := false;
      jar := WriteConsent(jar);
      AcceptedConsentIsSeen(old(jar));
      pendingHides := pendingHides + 1;
      if hasAcceptCallback {
        accepted := accepted + 1;
      }
    }

    /** `decline` (coockie-consent.tsx:29-37): like accept, but no cookie is written. */
    method Decline()
      modifies this
      ensures !isOpen && hidden == old(hidden) && jar == old(jar)
      ensures pendingHides == old(pendingHides) + 1
      ensures declined == old(declined) + (if hasDeclineCallback then 1 else 0) && accepted == old(accepted)
    {
      isOpen := false;
      pendingHides := pendingHides + 1;
      if hasDeclineCallback {
        declined := declined + 1;
      }
    }

    /** A scheduled hide timer fires and sets `hidden`; with none scheduled nothing happens.
        This is the only way `hidden` changes. */
    method HideTimerFires()
      modifies this
      ensures old(pendingHides) > 0 ==> hidden && pendingHides == old(pendingHides) - 1
      ensures old(pendingHides) == 0 ==> hidden == old(hidden) && pendingHides == 0
      ensures isOpen == old(isOpen) && jar == old(jar) && accepted == old(accepted) && declined == old(declined)
    {
      if pendingHides > 0 {
        hidden := true;
        pendingHides := pendingHides - 1;
      }
    }
  }

  /** Accepting on one visit closes the banner on mount on the next visit, outside demo
      mode; in demo mode it opens regardless. */
  method AcceptThenRevisit(demo: bool, jar: Jar) returns (first: Banner, second: Banner)
    ensures !first.isOpen && first.jar == WriteConsent(jar)
    ensures second.isOpen == demo && second.pendingHides == (if demo then 0 else 1)
  {
    first := new Banner(false, false, false, jar);
    first.Mount();
    first.Accept();
    second := new Banner(demo, false, false, first.jar);
    second.Mount();
  }
}
