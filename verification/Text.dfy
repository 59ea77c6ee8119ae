/** The few text rules the program applies to what a user types. */
module Text {

  /** unicode.IsSpace. */
  predicate IsSpace(c: char) {
    c in "\t\n\r " || c == '\U{000B}' || c == '\U{000C}' || c == '\U{0085}' || c == '\U{00A0}' || c == '\U{1680}'
    || '\U{2000}' <= c <= '\U{200A}' || c == '\U{2028}' || c == '\U{2029}' || c == '\U{202F}' || c == '\U{205F}'
       || c == '\U{3000}'
  }

  function TrimLeft(s: string): string {
    if s != "" && IsSpace(s[0]) then TrimLeft(s[1..]) else s
  }

  function TrimRight(s: string): string {
    if s != "" && IsSpace(s[|s| - 1]) then TrimRight(s[..|s| - 1]) else s
  }

  function TrimSpace(s: string): string {
    TrimRight(TrimLeft(s))
  }

  predicate Spaces(s: string) {
    forall c | c in s :: IsSpace(c)
  }

  /** Nothing to trim at either end. */
  predicate Trimmed(s: string) {
    s == "" || (!IsSpace(s[0]) && !IsSpace(s[|s| - 1]))
  }

  lemma {:induction false} TrimmedLeft(s: string) returns (before: string)
    ensures s == before + TrimLeft(s) && Spaces(before) && (TrimLeft(s) == "" || !IsSpace(TrimLeft(s)[0]))
  {
    before := "";
    if s != "" && IsSpace(s[0]) {
      before := TrimmedLeft(s[1..]);
      before := [s[0]] + before;
      assert s == [s[0]] + s[1..];
    }
  }

  lemma {:induction false} TrimmedRight(s: string) returns (after: string)
    ensures s == TrimRight(s) + after && Spaces(after)
    ensures TrimRight(s) == "" || (!IsSpace(TrimRight(s)[|TrimRight(s)| - 1]) && TrimRight(s)[0] == s[0])
  {
    after := "";
    if s != "" && IsSpace(s[|s| - 1]) {
      after := TrimmedRight(s[..|s| - 1]);
      after := after + [s[|s| - 1]];
      assert s == s[..|s| - 1] + [s[|s| - 1]];
    }
  }

  /** Trimming takes away the space at both ends, all of it and nothing else. */
  lemma TrimSpaceIsExact(s: string, t: string)
    ensures TrimSpace(s) == t
            <==> Trimmed(t)
                 && exists before: string, after: string :: s == before + t + after && Around(before, t, after)
  {
    var before := TrimmedLeft(s);
    var after := TrimmedRight(TrimLeft(s));
    assert s == before + TrimSpace(s) + after;
    if b: string, a: string :| s == b + t + a && Around(b, t, a) && Trimmed(t) {
      OneWayToTrim(before, TrimSpace(s), after, b, t, a);
    }
  }

  /** Only space is around `t`, and when there is nothing else it is all in front. */
  predicate Around(before: string, t: string, after: string) {
    Spaces(before) && Spaces(after) && (t == "" ==> after == "")
  }

  lemma OneWayToTrim(before: string, t: string, after: string, b: string, u: string, a: string)
    requires before + t + after == b + u + a && Trimmed(t) && Trimmed(u)
    requires Spaces(before) && Spaces(after) && Spaces(b) && Spaces(a)
    ensures t == u
  {
    var s := before + t + after;
    SolidInside(before, t, after);
    SolidInside(b, u, a);
    AllSpace(before, t, after);
    AllSpace(b, u, a);
    if t != "" && u != "" {
      Bounds(before, t, after);
      Bounds(b, u, a);
      OneStart(s, |before|, |b|);
      OneEnd(s, |before| + |t|, |b| + |u|);
      assert t == s[|before|..|before| + |t|] && u == s[|b|..|b| + |u|];
    }
  }

  lemma SolidInside(before: string, t: string, after: string)
    requires Trimmed(t)
    ensures t != "" ==> !Spaces(before + t + after)
  {
    if t != "" {
      assert (before + t + after)[|before|] == t[0];
    }
  }

  lemma AllSpace(before: string, t: string, after: string)
    requires Spaces(before) && Spaces(after)
    ensures t == "" ==> Spaces(before + t + after)
  {
  }

  /** Where the text inside the space begins and ends. */
  predicate BeginsAt(s: string, k: nat) {
    k < |s| && !IsSpace(s[k]) && forall i | 0 <= i < k :: IsSpace(s[i])
  }

  predicate EndsAt(s: string, k: nat) {
    0 < k <= |s| && !IsSpace(s[k - 1]) && forall i | k <= i < |s| :: IsSpace(s[i])
  }

  lemma Bounds(before: string, t: string, after: string)
    requires Spaces(before) && Spaces(after) && t != "" && Trimmed(t)
    ensures BeginsAt(before + t + after, |before|) && EndsAt(before + t + after, |before| + |t|)
  {
    var s := before + t + after;
    assert forall i | 0 <= i < |before| :: s[i] == before[i] && before[i] in before;
    assert forall i | |before| + |t| <= i < |s| :: s[i] == after[i - |before| - |t|] && s[i] in after;
  }

  lemma OneStart(s: string, j: nat, k: nat)
    requires BeginsAt(s, j) && BeginsAt(s, k)
    ensures j == k
  {
  }

  lemma OneEnd(s: string, j: nat, k: nat)
    requires EndsAt(s, j) && EndsAt(s, k)
    ensures j == k
  {
  }

  /** Enter on an empty line, or on nothing but spaces: the user cancels. */
  predicate Blank(s: string) {
    TrimSpace(s) == ""
  }

  /** normalizeUsername, for the letter mapping unicode.ToLower gives. */
  function Normalize(lower: char -> char, username: string): string {
    var trimmed := TrimSpace(username);
    seq(|trimmed|, i requires 0 <= i < |trimmed| => lower(trimmed[i]))
  }

  /** The normal form of a name is the name without the space around it, every letter in lower
      case and nothing else changed. */
  lemma NormalForm(lower: char -> char, username: string)
    ensures var name := Normalize(lower, username);
            && |name| == |TrimSpace(username)|
            && forall i | 0 <= i < |name| :: name[i] == lower(TrimSpace(username)[i])
  {
  }

  predicate Alphanumeric(c: char) {
    'a' <= c <= 'z' || '0' <= c <= '9'
  }

  /** The username pattern together with the configured length limits. */
  predicate ValidUsername(username: string, minimum: nat, maximum: nat) {
    && minimum <= |username| <= maximum
    && username != ""
    && Alphanumeric(username[0])
    && forall i | 0 <= i < |username| :: Alphanumeric(username[i]) || username[i] in "._-"
  }

  /** A name that can be registered is its own normal form, so every spelling of it that
      normalises to it reaches the same account. */
  lemma ValidUsernamesAreNormal(lower: char -> char, username: string, minimum: nat, maximum: nat)
    requires forall c | Alphanumeric(c) || c in "._-" :: lower(c) == c
    requires ValidUsername(username, minimum, maximum)
    ensures Normalize(lower, username) == username
  {
    assert username[0] in username && username[|username| - 1] in username;
    assert TrimLeft(username) == username && TrimRight(username) == username;
  }

  /** What validateCode demands of a code before it asks the OTP library. */
  predicate CodeShape(code: string, digits: nat) {
    |code| == digits && forall i | 0 <= i < |code| :: '0' <= code[i] <= '9'
  }
}
