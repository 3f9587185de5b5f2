/** The recursive removal of card verification data from a decoded JSON tree (internal/dto/payment.go). */
module Scrub {
  import opened Text

  datatype Json =
    | Null
    | Bool(b: bool)
    | Number(n: real)
    | Text(s: string)
    | List(elems: seq<Json>)
    | Object(members: map<string, Json>)

  predicate IsSensitive(key: string) {
    Lower(Trim(key)) in ["cvv_code", "cvv", "cvc", "cid"]
  }

  /** The tree after the removal. */
  function Scrubbed(j: Json): Json {
    match j
    case List(elems) => List(seq(|elems|, i requires 0 <= i < |elems| => Scrubbed(elems[i])))
    case Object(members) => Object(map k | k in members && !IsSensitive(k) :: Scrubbed(members[k]))
    case _ => j
  }

  /** The flag the removal returns. */
  predicate Changed(j: Json) {
    match j
    case List(elems) => exists i :: 0 <= i < |elems| && Changed(elems[i])
    case Object(members) => exists k <- members.Keys :: IsSensitive(k) || Changed(members[k])
    case _ => false
  }

  /** The four names of card verification data, in any capitals and with any spaces around them. */
  lemma SensitiveNames(key: string)
    ensures IsSensitive(key) <==> Upper(Trim(key)) in {"CVV_CODE", "CVV", "CVC", "CID"}
  {
    hide Trim, Lower, Upper;
    FoldsTo(Trim(key), "cvv_code", "CVV_CODE");
    FoldsTo(Trim(key), "cvv", "CVV");
    FoldsTo(Trim(key), "cvc", "CVC");
    FoldsTo(Trim(key), "cid", "CID");
  }

  lemma FoldsTo(text: string, small: string, capital: string)
    requires |small| == |capital|
    requires forall i :: 0 <= i < |small| ==>
               (small[i] == '_' && capital[i] == '_') || ('a' <= small[i] <= 'z' && UpperChar(small[i]) == capital[i])
    ensures Lower(text) == small <==> Upper(text) == capital
  {
    FoldEither(text, small);
    assert Lower(small) == small && Upper(small) == capital;
  }

  /** Of an object exactly the members with one of these names go. */
  lemma OnlyCardCodesGo(members: map<string, Json>, key: string)
    ensures key in Scrubbed(Object(members)).members
            <==> key in members && Upper(Trim(key)) !in {"CVV_CODE", "CVV", "CVC", "CID"}
  {
    SensitiveNames(key);
  }

  // ---------- The removal itself ----------

  /** The walk over a decoded tree, members in any order: what is left of the value, and the flag. */
  method RemoveSensitiveAuthenticationData(value: Json) returns (left: Json, changed: bool)
    ensures left == Scrubbed(value)
    ensures changed <==> Changed(value)
    decreases value, 1
  {
    match value
    case Object(members) => left, changed := RemoveFromMembers(value);
    case List(elems) => left, changed := RemoveFromElements(value);
    case _ => left, changed := value, false;
  }

  /** Sensitive members are deleted while the map is walked; the others are cleaned in place. */
  method RemoveFromMembers(value: Json) returns (left: Json, changed: bool)
    requires value.Object?
    ensures left == Scrubbed(value)
    ensures changed <==> Changed(value)
    decreases value, 0
  {
    var members, unseen := value.members, value.members.Keys;
    changed := false;
    while unseen != {}
      invariant unseen <= value.members.Keys
      invariant forall k :: k in members <==> k in value.members && (k in unseen || !IsSensitive(k))
      invariant forall k <- members.Keys ::
                  members[k] == if k in unseen then value.members[k] else Scrubbed(value.members[k])
      invariant changed <==>
                  exists k <- value.members.Keys :: k !in unseen && (IsSensitive(k) || Changed(value.members[k]))
      decreases unseen
    {
      var key :| key in unseen;
      unseen := unseen - {key};
      if IsSensitive(key) {
        members := members - {key};
        changed := true;
      } else {
        var nested, found := RemoveSensitiveAuthenticationData(value.members[key]);
        members := members[key := nested];
        changed := changed || found;
      }
    }
    left := Object(members);
    assert members == Scrubbed(value).members;
  }

  method RemoveFromElements(value: Json) returns (left: Json, changed: bool)
    requires value.List?
    ensures left == Scrubbed(value)
    ensures changed <==> Changed(value)
    decreases value, 0
  {
    var elems := value.elems;
    changed := false;
    for i := 0 to |elems|
      invariant |elems| == |value.elems|
      invariant forall j :: 0 <= j < |elems| ==> elems[j] == if j < i then Scrubbed(value.elems[j]) else value.elems[j]
      invariant changed <==> exists j :: 0 <= j < i && Changed(value.elems[j])
    {
      var nested, found := RemoveSensitiveAuthenticationData(value.elems[i]);
      elems := elems[i := nested];
      changed := changed || found;
    }
    left := List(elems);
  }

  // ---------- Paths ----------

  datatype Step = Key(key: string) | At(index: nat)
  type Path = seq<Step>

  function Lookup(j: Json, path: Path): Option<Json> {
    if path == [] then Some(j)
    else match (j, path[0])
      case (List(elems), At(i)) => if i < |elems| then Lookup(elems[i], path[1..]) else None
      case (Object(members), Key(k)) => if k in members then Lookup(members[k], path[1..]) else None
      case _ => None
  }

  predicate ThroughSensitive(path: Path) {
    exists i :: 0 <= i < |path| && path[i].Key? && IsSensitive(path[i].key)
  }

  /** The path leads to a present member with a sensitive key. */
  predicate SensitiveAt(j: Json, path: Path) {
    path != [] && path[|path| - 1].Key? && IsSensitive(path[|path| - 1].key) && Lookup(j, path).Some?
  }

  /** A sensitive key is present at some depth. */
  ghost predicate HasSensitive(j: Json) {
    exists path: Path :: SensitiveAt(j, path)
  }

  /** Every path keeps its (scrubbed) value, unless it passes through a sensitive key: then it is gone. */
  lemma {:induction false} PathsAfterScrub(j: Json, path: Path)
    ensures Lookup(Scrubbed(j), path)
            == if ThroughSensitive(path) then None
               else match Lookup(j, path) case Some(v) => Some(Scrubbed(v)) case None => None
    decreases |path|
  {
    if path != [] {
      var rest := path[1..];
      assert ThroughSensitive(path) <==> (path[0].Key? && IsSensitive(path[0].key)) || ThroughSensitive(rest) by {
        if ThroughSensitive(path) {
          var i :| 0 <= i < |path| && path[i].Key? && IsSensitive(path[i].key);
          if i > 0 { assert rest[i - 1] == path[i]; }
        }
        if ThroughSensitive(rest) {
          var i :| 0 <= i < |rest| && rest[i].Key? && IsSensitive(rest[i].key);
          assert path[i + 1] == rest[i];
        }
      }
      match (j, path[0]) {
        case (List(elems), At(i)) => if i < |elems| { PathsAfterScrub(elems[i], rest); }
        case (Object(members), Key(k)) => if k in members { PathsAfterScrub(members[k], rest); }
        case _ =>
      }
    }
  }

  /** What is a scalar keeps its very value. */
  lemma ScalarsKept(j: Json, path: Path)
    requires !ThroughSensitive(path) && Lookup(j, path).Some?
    requires !Lookup(j, path).value.List? && !Lookup(j, path).value.Object?
    ensures Lookup(Scrubbed(j), path) == Lookup(j, path)
  {
    PathsAfterScrub(j, path);
  }

  /** No sensitive key remains at any depth. */
  lemma NothingSensitiveRemains(j: Json)
    ensures !HasSensitive(Scrubbed(j))
  {
    forall path: Path ensures !SensitiveAt(Scrubbed(j), path) {
      PathsAfterScrub(j, path);
    }
  }

  /** The flag says whether a sensitive key was present. */
  lemma FlagIsPresence(j: Json)
    ensures Changed(j) <==> HasSensitive(j)
  {
    if Changed(j) { var path := WitnessOfFlag(j); }
    forall path: Path | SensitiveAt(j, path) ensures Changed(j) { PresenceRaisesFlag(j, path); }
  }

  lemma {:induction false} PresenceRaisesFlag(j: Json, path: Path)
    requires SensitiveAt(j, path)
    ensures Changed(j)
    decreases |path|
  {
    var rest := path[1..];
    if rest != [] {
      assert rest[|rest| - 1] == path[|path| - 1];
      match (j, path[0]) {
        case (List(elems), At(i)) => PresenceRaisesFlag(elems[i], rest);
        case (Object(members), Key(k)) => PresenceRaisesFlag(members[k], rest);
      }
    }
  }

  lemma {:induction false} WitnessOfFlag(j: Json) returns (path: Path)
    requires Changed(j)
    ensures SensitiveAt(j, path)
  {
    match j
    case List(elems) =>
      var i :| 0 <= i < |elems| && Changed(elems[i]);
      var rest := WitnessOfFlag(elems[i]);
      Below(j, At(i), elems[i], rest);
      path := [At(i)] + rest;
    case Object(members) =>
      var k :| k in members && (IsSensitive(k) || Changed(members[k]));
      path := WitnessInMember(j, k);
  }

  lemma {:induction false} WitnessInMember(j: Json, k: string) returns (path: Path)
    requires j.Object? && k in j.members && (IsSensitive(k) || Changed(j.members[k]))
    ensures SensitiveAt(j, path)
    decreases j, 0
  {
    var rest := [];
    if !IsSensitive(k) {
      rest := WitnessOfFlag(j.members[k]);
    }
    Below(j, Key(k), j.members[k], rest);
    path := [Key(k)] + rest;
  }

  /** One step down, then the rest of the path. */
  lemma Below(j: Json, step: Step, child: Json, rest: Path)
    requires (j.List? && step.At? && step.index < |j.elems| && child == j.elems[step.index])
             || (j.Object? && step.Key? && step.key in j.members && child == j.members[step.key])
    ensures Lookup(j, [step] + rest) == Lookup(child, rest)
    ensures SensitiveAt(child, rest) ==> SensitiveAt(j, [step] + rest)
  {
    var path := [step] + rest;
    assert path[1..] == rest;
    assert rest != [] ==> path[|path| - 1] == rest[|rest| - 1];
  }

  /** Without a sensitive key nothing changes. */
  lemma {:induction false} UntouchedWhenClean(j: Json)
    requires !Changed(j)
    ensures Scrubbed(j) == j
  {
    match j
    case List(elems) =>
      forall i | 0 <= i < |elems| ensures Scrubbed(elems[i]) == elems[i] {
        UntouchedWhenClean(elems[i]);
      }
    case Object(members) =>
      forall k | k in members ensures !IsSensitive(k) && Scrubbed(members[k]) == members[k] {
        UntouchedWhenClean(members[k]);
      }
      assert Scrubbed(j).members == members;
    case _ =>
  }

  /** A second run finds nothing and changes nothing. */
  lemma SecondRunIsIdle(j: Json)
    ensures !Changed(Scrubbed(j)) && Scrubbed(Scrubbed(j)) == Scrubbed(j)
  {
    NothingSensitiveRemains(j);
    FlagIsPresence(Scrubbed(j));
    UntouchedWhenClean(Scrubbed(j));
  }
}
