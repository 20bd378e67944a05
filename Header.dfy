/**
 * The page header (`src/components/Header/Header.jsx`): the user's initials and display
 * name, the health flag it shows (the parent's when the parent has one), the result of
 * its own periodic health check, and the logout pop-up toggle.
 */
module Header {
  import opened Wrappers
  import opened Text
  import opened Frames

  const FallbackInitials := "US"
  const GuestName := "Guest"
  const HealthyStatus := "Healthy"

  /**
   * `getInitials(name)`: "US" for a missing or blank name; otherwise the upper-cased first
   * letter of the first word of the trimmed name, followed by that of the second word
   * when there is one.
   */
  function GetInitials(name: string): (r: string)
    ensures AllSpace(name) ==> r == FallbackInitials
    ensures Trim(name) != [] ==> 1 <= |r| <= 2 && r[0] == UpperChar(Trim(name)[0])
  {
    if name == "" then FallbackInitials
    else
      var t := Trim(name);
      TrimIsTrimOf(name);
      var words := SplitWs(t);
      if |words| == 1 then
        if words[0] == [] then FallbackInitials else [UpperChar(words[0][0])]
      else
        SplitPiecesNonEmpty(t);
        [UpperChar(words[0][0]), UpperChar(words[1][0])]
  }

  /** A single word, with any whitespace around it, gives its first letter, upper-cased. */
  lemma InitialsOfWord(lead: string, a: string, trail: string)
    requires AllSpace(lead) && AllSpace(trail)
    requires a != [] && NoSpace(a)
    ensures GetInitials(lead + a + trail) == [UpperChar(a[0])]
  {
    TrimOfPadded(lead, a, trail);
    SplitWord(a);
  }

  /**
   * Two or more words, with any whitespace around and between them, give the upper-cased
   * first letters of the first two.
   */
  lemma InitialsOfWords(lead: string, a: string, sp: string, b: string, trail: string)
    requires AllSpace(lead) && AllSpace(trail)
    requires a != [] && NoSpace(a) && sp != [] && AllSpace(sp) && b != [] && NoEdgeSpace(b)
    ensures GetInitials(lead + a + sp + b + trail) == [UpperChar(a[0]), UpperChar(b[0])]
  {
    var words := a + sp + b;
    assert words[0] == a[0] && words[|words| - 1] == b[|b| - 1];
    assert lead + a + sp + b + trail == lead + words + trail;
    TrimOfPadded(lead, words, trail);
    SplitAtSpace(a, sp, b);
  }

  /** `email.split('@')[0]`: the part of the address before its first '@' (all of it when there is none). */
  function LocalPart(email: string): (r: string)
    ensures |r| <= |email| && r == email[..|r|]
    ensures '@' !in r
    ensures |r| < |email| ==> email[|r|] == '@'
  {
    if email == [] || email[0] == '@' then ""
    else
      var rest := LocalPart(email[1..]);
      assert [email[0]] + rest == email[..|rest| + 1];
      [email[0]] + rest
  }

  /** The local part of `a@d` is `a` when `a` has no '@'. */
  lemma LocalPartOf(a: string, d: string)
    requires '@' !in a
    ensures LocalPart(a + "@" + d) == a
  {
    var e := a + "@" + d;
    var r := LocalPart(e);
    assert forall i :: 0 <= i < |a| ==> e[i] == a[i] && a[i] != '@';
    assert e[|a|] == '@';
    if |r| < |a| {
      assert false;
    } else if |r| > |a| {
      assert false;
    }
    assert e[..|a|] == a;
  }

  /**
   * `userInitials`: from the name when the user has one, else from the part of the
   * email before '@', else "US".
   */
  function UserInitials(currentUser: Option<User>): (r: string)
    ensures 1 <= |r| <= 2
    ensures currentUser.None? || (currentUser.value.name == "" && currentUser.value.email == "") ==> r == FallbackInitials
    ensures currentUser.Some? && currentUser.value.name != "" ==> r == GetInitials(currentUser.value.name)
    ensures currentUser.Some? && currentUser.value.name == "" && currentUser.value.email != "" ==>
      r == GetInitials(LocalPart(currentUser.value.email))
  {
    if currentUser.Some? && currentUser.value.name != "" then GetInitials(currentUser.value.name)
    else if currentUser.Some? && currentUser.value.email != "" then GetInitials(LocalPart(currentUser.value.email))
    else FallbackInitials
  }

  /** A user with no name but an address `a@d`, `a` a single word, is shown the first letter of `a`. */
  lemma InitialsFromEmail(u: User, a: string, d: string)
    requires u.name == "" && u.email == a + "@" + d
    requires a != [] && NoSpace(a) && '@' !in a
    ensures UserInitials(Some(u)) == [UpperChar(a[0])]
  {
    LocalPartOf(a, d);
    assert [] + a + [] == a;
    InitialsOfWord([], a, []);
  }

  /** `displayUsername`: the user's name, or "Guest"; never empty. */
  function DisplayUsername(currentUser: Option<User>): (r: string)
    ensures r != ""
    ensures currentUser.Some? && currentUser.value.name != "" ==> r == currentUser.value.name
    ensures currentUser.None? || currentUser.value.name == "" ==> r == GuestName
  {
    if currentUser.Some? && currentUser.value.name != "" then currentUser.value.name else GuestName
  }

  /** A health flag as the header sees it: `null`, `undefined` (the prop not passed) or a boolean. */
  datatype Health = Null | Undefined | Known(healthy: bool)

  /** `effectiveAllHealthy`: the parent's flag unless it is exactly `null`, the header's own otherwise. */
  function EffectiveAllHealthy(parent: Health, own: Health): (r: Health)
    ensures parent != Null ==> r == parent
    ensures parent == Null ==> r == own
  {
    if parent != Null then parent else own
  }

  /** The user block and its initials are shown when the effective flag is not `null`. */
  predicate ShowsUserInfo(h: Health) {
    h != Null
  }

  /** The info button is enabled only when the effective flag is truthy. */
  predicate InfoEnabled(h: Health) {
    h == Known(true)
  }

  /**
   * The info button is enabled exactly when the parent reports healthy, or passes `null`
   * and the header's own check reports healthy; the user block is shown unless both
   * flags are `null`.
   */
  lemma HealthPrecedence(parent: Health, own: Health)
    ensures InfoEnabled(EffectiveAllHealthy(parent, own)) <==>
      parent == Known(true) || (parent == Null && own == Known(true))
    ensures ShowsUserInfo(EffectiveAllHealthy(parent, own)) <==> parent != Null || own != Null
  {
  }

  /** `Object.values(response).every((status) => status === "Healthy")`. */
  function AllHealthy(statuses: seq<string>): (r: bool)
    ensures r <==> forall i :: 0 <= i < |statuses| ==> statuses[i] == HealthyStatus
  {
    if statuses == [] then true
    else statuses[0] == HealthyStatus && AllHealthy(statuses[1..])
  }

  /** Reports from two services are all healthy exactly when each part is. */
  lemma {:induction false} AllHealthyAppend(xs: seq<string>, ys: seq<string>)
    ensures AllHealthy(xs + ys) == (AllHealthy(xs) && AllHealthy(ys))
  {
    assert forall i :: 0 <= i < |xs| ==> (xs + ys)[i] == xs[i];
    assert forall i :: 0 <= i < |ys| ==> (xs + ys)[|xs| + i] == ys[i];
  }

  /** The header's own state: its health flag and the logout pop-up. */
  class HeaderBar {
    var parentHealthy: Health
    var allHealthy: Health
    var popupVisible: bool
    var currentUser: Option<User>

    /** Mounted with the parent's flag and user: no own result yet, pop-up hidden. */
    constructor (parent: Health, user: Option<User>)
      ensures parentHealthy == parent && currentUser == user
      ensures allHealthy == Null && !popupVisible
    {
      parentHealthy := parent;
      currentUser := user;
      allHealthy := Null;
      popupVisible := false;
    }

    function Effective(): (h: Health)
      reads this`parentHealthy, this`allHealthy
      ensures parentHealthy != Null ==> h == parentHealthy
      ensures parentHealthy == Null ==> h == allHealthy
    {
      EffectiveAllHealthy(parentHealthy, allHealthy)
    }

    /**
     * One run of `fetchHealth`: `response` is the parsed health report's status values,
     * None when the request or its parsing failed. The own flag becomes a boolean, true
     * exactly when a report arrived and every status in it is "Healthy".
     */
    method FetchHealth(response: Option<seq<string>>)
      modifies this`allHealthy
      ensures allHealthy.Known?
      ensures allHealthy.healthy <==> response.Some? && forall i :: 0 <= i < |response.value| ==> response.value[i] == HealthyStatus
    {
      if response.Some? {
        allHealthy := Known(AllHealthy(response.value));
      } else {
        allHealthy := Known(false);
      }
    }

    /** `togglePopup`. */
    method TogglePopup()
      modifies this`popupVisible
      ensures popupVisible == !old(popupVisible)
    {
      popupVisible := !popupVisible;
    }
  }
}
