/**
 * The console family an account is created with, inferred from the email
 * string the client sends to the provisioning call.
 */
module ConsoleTypes {

  /** Stored in the account record as console_type 0, 1 or 2. */
  datatype ConsoleType = Xbox360 | PS3 | Wii

  function Code(c: ConsoleType): (n: nat)
  {
    match c
    case Xbox360 => 0
    case PS3 => 1
    case Wii => 2
  }

  /** The marker an emulated Nintendo identity carries in its email string. */
  const Marker: string := "DummyNintendo"

  predicate OccursAt(s: string, m: string, i: nat) {
    i + |m| <= |s| && s[i..i + |m|] == m
  }

  /** `m` occurs somewhere in `s`. */
  ghost predicate Contains(s: string, m: string) {
    exists i: nat :: OccursAt(s, m, i)
  }

  /**
   * Left-to-right search for `m` in `s`, the test the pattern match performs;
   * it succeeds exactly when `m` occurs somewhere in `s`.
   */
  function Search(s: string, m: string): (r: bool)
    ensures r <==> Contains(s, m)
    decreases |s|
  {
    if |s| < |m| then
      assert forall i: nat :: !OccursAt(s, m, i);
      false
    else if s[..|m|] == m then
      assert OccursAt(s, m, 0);
      true
    else
      ShiftOccurrence(s, m);
      Search(s[1..], m)
  }

  /** Past a mismatch at the front, `m` occurs in `s` exactly when it occurs in `s[1..]`. */
  lemma ShiftOccurrence(s: string, m: string)
    requires |m| <= |s| && s[..|m|] != m
    ensures |s| > 0
    ensures Contains(s, m) <==> Contains(s[1..], m)
  {
    if Contains(s[1..], m) {
      var i: nat :| OccursAt(s[1..], m, i);
      assert s[i + 1..i + 1 + |m|] == s[1..][i..i + |m|];
      assert OccursAt(s, m, i + 1);
    }
    if Contains(s, m) {
      var i: nat :| OccursAt(s, m, i);
      assert i > 0;
      assert s[1..][i - 1..i - 1 + |m|] == s[i..i + |m|];
      assert OccursAt(s[1..], m, i - 1);
    }
  }

  /**
   * servers/nintendocreateaccount.go:26-34: Wii exactly when the marker occurs
   * in the email; otherwise the variable keeps its zero value, Xbox 360. This
   * entry never yields PS3.
   */
  function Classify(email: string): (c: ConsoleType)
    ensures c == Wii <==> Contains(email, Marker)
    ensures c == Xbox360 <==> !Contains(email, Marker)
    ensures Code(c) != Code(PS3)
  {
    if Search(email, Marker) then Wii else Xbox360
  }
}
