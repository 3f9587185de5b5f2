/** Strings as the gateway uses them: trimming, ASCII case, digits and composite map keys.
    A `char` stands for one byte of ASCII text. */
module Text {

  datatype Option<+T> = None | Some(value: T)

  /** A Go `(value, error)` pair. */
  datatype Outcome<+T> = Ok(value: T) | Err(message: string)

  // ---------- Trimming ----------

  predicate IsSpace(c: char) {
    c == ' ' || 9 <= c as int <= 13
  }

  /** True when trimming has nothing to remove. */
  predicate Trimmed(s: string) {
    s == "" || (!IsSpace(s[0]) && !IsSpace(s[|s| - 1]))
  }

  function TrimLeft(s: string): (t: string)
    ensures |t| <= |s| && (t == "" || !IsSpace(t[0]))
  {
    if s != "" && IsSpace(s[0]) then TrimLeft(s[1..]) else s
  }

  function TrimRight(s: string): (t: string)
    ensures |t| <= |s| && (t == "" || (!IsSpace(t[|t| - 1]) && t[0] == s[0]))
  {
    if s != "" && IsSpace(s[|s| - 1]) then TrimRight(s[..|s| - 1]) else s
  }

  function Trim(s: string): (t: string)
    ensures Trimmed(t) && |t| <= |s|
    ensures t == s <==> Trimmed(s)
  {
    TrimRight(TrimLeft(s))
  }

  /** The six ASCII spaces: tab, line feed, vertical tab, form feed, carriage return, blank. */
  lemma SpacesAreSix(c: char)
    ensures IsSpace(c) <==> c as int in {9, 10, 11, 12, 13, 32}
  {
  }

  predicate AllSpaces(s: string) {
    forall i :: 0 <= i < |s| ==> IsSpace(s[i])
  }

  lemma {:induction false} TrimLeftDropsSpaces(s: string)
    ensures var front := |s| - |TrimLeft(s)|; s[front..] == TrimLeft(s) && AllSpaces(s[..front])
  {
    if s != "" && IsSpace(s[0]) {
      TrimLeftDropsSpaces(s[1..]);
      var front := |s| - |TrimLeft(s)|;
      assert s[1..][front - 1..] == s[front..];
      assert s[..front] == [s[0]] + s[1..][..front - 1];
    }
  }

  lemma {:induction false} TrimRightDropsSpaces(s: string)
    ensures var n := |TrimRight(s)|; s[..n] == TrimRight(s) && AllSpaces(s[n..])
  {
    if s != "" && IsSpace(s[|s| - 1]) {
      TrimRightDropsSpaces(s[..|s| - 1]);
      var n := |TrimRight(s)|;
      assert s[..|s| - 1][..n] == s[..n];
      assert s[n..] == s[..|s| - 1][n..] + [s[|s| - 1]];
    }
  }

  /** Trimming takes away spaces at both ends and nothing else. */
  lemma TrimDropsOnlySpaces(s: string) returns (front: string, back: string)
    ensures s == front + Trim(s) + back && AllSpaces(front) && AllSpaces(back)
  {
    hide TrimLeft, TrimRight;
    var t := TrimLeft(s);
    TrimLeftDropsSpaces(s);
    TrimRightDropsSpaces(t);
    front, back := s[..|s| - |t|], t[|Trim(s)|..];
    assert s == front + t && t == Trim(s) + back;
  }

  predicate Blank(s: string) {
    Trim(s) == ""
  }

  // ---------- Letter case ----------

  function LowerChar(c: char): char {
    if 'A' <= c <= 'Z' then (c as int + 32) as char else c
  }

  function UpperChar(c: char): char {
    if 'a' <= c <= 'z' then (c as int - 32) as char else c
  }

  function Lower(s: string): (t: string)
    ensures |t| == |s|
    ensures Trimmed(s) ==> Trimmed(t)
  {
    seq(|s|, i requires 0 <= i < |s| => LowerChar(s[i]))
  }

  function Upper(s: string): (t: string)
    ensures |t| == |s|
    ensures Trimmed(s) ==> Trimmed(t)
  {
    seq(|s|, i requires 0 <= i < |s| => UpperChar(s[i]))
  }

  predicate UpperText(s: string) {
    forall i :: 0 <= i < |s| ==> UpperChar(s[i]) == s[i]
  }

  lemma UpperTextIsFixed(s: string)
    requires UpperText(s)
    ensures Upper(s) == s
  {
  }

  lemma UpperTwice(s: string)
    ensures Upper(Upper(s)) == Upper(s)
  {
  }

  predicate NoCapitals(s: string) {
    forall i :: 0 <= i < |s| ==> !('A' <= s[i] <= 'Z')
  }

  predicate NoSmallLetters(s: string) {
    forall i :: 0 <= i < |s| ==> !('a' <= s[i] <= 'z')
  }

  /** Lowering changes exactly texts with capitals, raising exactly texts with small letters. */
  lemma CaseFixedPoints(s: string)
    ensures Lower(s) == s <==> NoCapitals(s)
    ensures Upper(s) == s <==> NoSmallLetters(s)
    ensures NoCapitals(Lower(s)) && NoSmallLetters(Upper(s))
  {
    assert Lower(s) == s ==> forall i :: 0 <= i < |s| ==> LowerChar(s[i]) == s[i];
    assert Upper(s) == s ==> forall i :: 0 <= i < |s| ==> UpperChar(s[i]) == s[i];
  }

  /** Texts agree in lower case exactly when they agree in upper case. */
  lemma FoldEither(a: string, b: string)
    ensures Lower(a) == Lower(b) <==> Upper(a) == Upper(b)
  {
    forall i | 0 <= i < |a| && i < |b|
      ensures Lower(a)[i] == Lower(b)[i] <==> Upper(a)[i] == Upper(b)[i]
    {
      assert LowerChar(a[i]) == LowerChar(b[i]) <==> UpperChar(a[i]) == UpperChar(b[i]);
    }
    assert |Lower(a)| == |Upper(a)| == |a| && |Lower(b)| == |Upper(b)| == |b|;
  }

  /** `strings.EqualFold` on ASCII text. */
  predicate EqualFold(a: string, b: string) {
    Upper(a) == Upper(b)
  }

  // ---------- Search, digits ----------

  predicate HasPrefix(s: string, p: string) {
    |p| <= |s| && s[..|p|] == p
  }

  predicate IsDigit(c: char) {
    '0' <= c <= '9'
  }

  predicate AllDigits(s: string) {
    forall i :: 0 <= i < |s| ==> IsDigit(s[i])
  }

  function DigitsOnly(s: string): (t: string)
    ensures |t| <= |s|
  {
    if s == "" then ""
    else if IsDigit(s[0]) then [s[0]] + DigitsOnly(s[1..])
    else DigitsOnly(s[1..])
  }

  lemma {:induction false} DigitsOnlyAreDigits(s: string)
    ensures AllDigits(DigitsOnly(s))
    ensures AllDigits(s) <==> DigitsOnly(s) == s
  {
    if s != "" {
      DigitsOnlyAreDigits(s[1..]);
      if AllDigits(s) {
        assert AllDigits(s[1..]);
        assert [s[0]] + s[1..] == s;
      }
    }
  }

  lemma DigitsOnlyAppend(a: string, b: string)
    ensures DigitsOnly(a + b) == DigitsOnly(a) + DigitsOnly(b)
  {
    if a == "" {
      assert a + b == b;
    } else {
      assert (a + b)[0] == a[0] && (a + b)[1..] == a[1..] + b;
    }
  }

  /** The first non-blank value, as it is (internal/httpapi/webhooks/util.go). */
  function FirstNonBlank(a: string, b: string): string {
    if !Blank(a) then a else if !Blank(b) then b else ""
  }

  /** The first non-blank value, trimmed (storage and refunds helpers). */
  function FirstNonBlankTrimmed(a: string, b: string): string {
    Trim(FirstNonBlank(a, b))
  }

  /** The first value that is not blank, trimmed; nothing if all are blank. */
  predicate IsFirstNonBlank(values: seq<string>, first: string) {
    || (first == "" && forall i :: 0 <= i < |values| ==> Blank(values[i]))
    || exists i :: 0 <= i < |values| && first != "" && first == Trim(values[i])
                   && forall j :: 0 <= j < i ==> Blank(values[j])
  }

  // ---------- Composite map keys ----------

  /** The key `merchant:id` that every in-memory map is indexed by. */
  function Composite(merchant: string, id: string): string {
    merchant + ":" + id
  }

  /** Two merchants without a colon never share a composite key. */
  lemma CompositeInjective(m1: string, id1: string, m2: string, id2: string)
    requires ':' !in m1 && ':' !in m2
    ensures Composite(m1, id1) == Composite(m2, id2) <==> m1 == m2 && id1 == id2
  {
    var a, b := Composite(m1, id1), Composite(m2, id2);
    assert a[|m1|] == ':' && b[|m2|] == ':';
    assert |m1| < |m2| ==> b[|m1|] == m2[|m1|];
    assert |m2| < |m1| ==> a[|m2|] == m1[|m2|];
    CompositeParts(m1, id1);
    CompositeParts(m2, id2);
  }

  /** The same when it is the ids that have no colon. */
  lemma CompositeInjectiveById(m1: string, id1: string, m2: string, id2: string)
    requires ':' !in id1 && ':' !in id2
    ensures Composite(m1, id1) == Composite(m2, id2) <==> m1 == m2 && id1 == id2
  {
    var a, b := Composite(m1, id1), Composite(m2, id2);
    assert a[|m1|] == ':' && b[|m2|] == ':';
    assert |m1| < |m2| < |a| ==> a[|m2|] == id1[|m2| - |m1| - 1];
    assert |m2| < |m1| < |b| ==> b[|m1|] == id2[|m1| - |m2| - 1];
    CompositeParts(m1, id1);
    CompositeParts(m2, id2);
  }

  lemma CompositeParts(m: string, id: string)
    ensures Composite(m, id)[..|m|] == m && Composite(m, id)[|m| + 1..] == id
  {
  }

  /** Trimming both ids leaves the composite key alone exactly when neither id had spaces to trim. */
  lemma CompositeOfTrimmed(merchant: string, id: string)
    ensures Composite(Trim(merchant), Trim(id)) == Composite(merchant, id)
            <==> Trimmed(merchant) && Trimmed(id)
  {
    var a, b := Composite(Trim(merchant), Trim(id)), Composite(merchant, id);
    if a == b {
      assert |Trim(merchant)| == |merchant| && |Trim(id)| == |id|;
      assert a[..|merchant|] == Trim(merchant) && b[..|merchant|] == merchant;
      assert a[|merchant| + 1..] == Trim(id) && b[|merchant| + 1..] == id;
    }
  }
}
