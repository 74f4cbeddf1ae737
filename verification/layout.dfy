/** The page chrome around every protected page: the scan-alert banner with
    its danger classification, the navigation links, and the logout button. */
module Layout {
  import opened Wrappers
  import opened Text
  import SocketStore
  import AuthSession

  /** The one classification rule: a message is about danger when its
      lower-cased text contains "danger" anywhere, so "Not in danger" is
      danger too. */
  predicate IsDanger(message: string) {
    Includes(ToLower(message), "danger")
  }

  /** A scan's optional message as a banner shows it: null or undefined is
      "", anything else is trimmed. */
  function Normalised(message: Option<string>): (m: string)
    ensures message.None? ==> m == ""
    ensures message.Some? ==> m == Trim(message.value)
  {
    match message
    case None => ""
    case Some(text) => Trim(text)
  }

  /** Red for danger, amber otherwise. */
  datatype Tone = Red | Amber

  /** What the banner shows: whose QR code was scanned, the message segment
      if there is one, when the location was captured, and the tone of the
      container, the text and the dismiss button. */
  datatype Banner = Banner(
    childName: string,
    message: Option<string>,
    capturedAt: int,
    container: Tone,
    text: Tone,
    button: Tone)

  /** Trimming never changes the classification: "danger" holds no white
      space, so no occurrence of it can reach into what `trim` removes. */
  lemma {:induction false} DangerIgnoresTrim(message: string)
    ensures IsDanger(Trim(message)) <==> IsDanger(message)
  {
    IncludesLowerTrim(message, "danger");
  }

  /** The rule read as occurrences: a message is danger exactly when
      "danger" occurs at some index of its lower-cased text. */
  lemma DangerIff(message: string)
    ensures IsDanger(message) <==> exists i :: OccursAt(ToLower(message), "danger", i)
  {
    var lower := ToLower(message);
    IncludesIff(lower, "danger");
    if IsDanger(message) {
      var i :| OccursAt(lower, "danger", i);
      assert OccursAt(ToLower(message), "danger", i);
    } else {
      assert !exists i :: OccursAt(lower, "danger", i);
    }
  }

  /** A string in which "danger" occurs is at least as long as "danger". */
  lemma DangerIsNonEmpty(message: string)
    ensures IsDanger(message) ==> |message| >= 6
  {
    IncludesIff(ToLower(message), "danger");
  }

  /** What normalising does to the classification and to emptiness. */
  lemma NormalisedFacts(message: Option<string>)
    ensures IsDanger(Normalised(message)) <==> message.Some? && IsDanger(message.value)
    ensures Normalised(message) == "" <==> message.None? || AllSpace(message.value)
    ensures IsDanger(Normalised(message)) ==> Normalised(message) != ""
  {
    if message.Some? {
      DangerIgnoresTrim(message.value);
      TrimEmptyIff(message.value);
    }
    DangerIsNonEmpty(Normalised(message));
  }

  /** The banner, given the store's current alert. It is shown exactly when
      an alert is held; its tone is red exactly when the message as sent
      classifies as danger; the message segment appears exactly when the
      message is more than white space, and a red banner always shows it. */
  function BannerOf(lastScan: Option<SocketStore.ScanAlert>): (b: Option<Banner>)
    ensures b.Some? <==> lastScan.Some?
    ensures b.Some? ==>
      && b.value.childName == lastScan.value.childName
      && b.value.capturedAt == lastScan.value.log.timestamp
      && b.value.container == b.value.text == b.value.button
    ensures b.Some? ==>
      var raw := lastScan.value.log.message;
      && (b.value.container == Red <==> raw.Some? && IsDanger(raw.value))
      && (b.value.message.Some? <==> raw.Some? && !AllSpace(raw.value))
      && (b.value.message.Some? ==> b.value.message.value == Trim(raw.value))
    ensures b.Some? && b.value.container == Red ==> b.value.message.Some?
  {
    match lastScan
    case None => None
    case Some(alert) =>
      var msg := Normalised(alert.log.message);
      var danger := IsDanger(msg);
      var tone := if danger then Red else Amber;
      NormalisedFacts(alert.log.message);
      Some(Banner(alert.childName, if msg != "" then Some(msg) else None, alert.log.timestamp, tone, tone, tone))
  }

  /** The dismiss button: `clearLastScan` and nothing else, which hides the
      banner and leaves the connection as it was. */
  function Dismiss(store: SocketStore.Store): (r: SocketStore.Store)
    ensures BannerOf(r.lastScan).None?
    ensures r.connected == store.connected && r.socket == store.socket && r.token == store.token
  {
    SocketStore.Step(store, SocketStore.ClearLastScan)
  }

  /** A navigation link is highlighted when the path is exactly its target. */
  predicate NavActive(pathname: string, href: string) {
    pathname == href
  }

  /** The two navigation links, Dashboard and Add Child. */
  function NavLinks(pathname: string): (active: (bool, bool))
    ensures !(active.0 && active.1)
    ensures active.0 <==> pathname == "/dashboard"
    ensures active.1 <==> pathname == "/children/new"
  {
    (NavActive(pathname, "/dashboard"), NavActive(pathname, "/children/new"))
  }

  /** A page below a link's target does not highlight the link. */
  lemma NavIsNotPrefix(suffix: string)
    requires suffix != ""
    ensures !NavLinks("/dashboard" + suffix).0
    ensures !NavLinks("/children/new" + suffix).1
  {
    assert |"/dashboard" + suffix| > |"/dashboard"|;
    assert |"/children/new" + suffix| > |"/children/new"|;
  }

  /** `handleLogout`: sign out, then go to the landing page. */
  function HandleLogout(auth: AuthSession.AuthState): (r: (AuthSession.AuthState, string))
    ensures r.0.user.None? && r.0.token.None? && r.0.stored.None? && r.0.loading == auth.loading
    ensures r.1 == "/"
  {
    (AuthSession.Logout(auth), "/")
  }

  /** A message is danger as soon as one six-letter window of it folds to
      "danger". */
  lemma DangerAt(message: string, i: nat)
    requires i + 6 <= |message| && ToLower(message[i..i + 6]) == "danger"
    ensures IsDanger(message)
  {
    ToLowerSlice(message, i, i + 6);
    assert OccursAt(ToLower(message), "danger", i);
    IncludesIff(ToLower(message), "danger");
  }

  /** Negation does not help: "Not in danger" is classed as danger. */
  lemma NegatedIsDanger()
    ensures IsDanger("Not in danger")
  {
    var m := "Not in danger";
    assert m[7..13] == "danger";
    DangerAt(m, 7);
  }

  /** Case does not matter: "I am in Danger" is classed as danger. */
  lemma CapitalisedIsDanger()
    ensures IsDanger("I am in Danger")
  {
    var m := "I am in Danger";
    assert m[8..14] == "Danger";
    assert ToLower("Danger") == "danger";
    DangerAt(m, 8);
  }

  /** No message, or a short one, is never danger. */
  lemma ShortIsSafe()
    ensures !IsDanger("") && !IsDanger("safe")
  {
    DangerIsNonEmpty("");
    DangerIsNonEmpty("safe");
  }
}
