/** Repeated keys: where the loader looks at the first occurrence only, and that nothing else
    stands between its schema and the plain reading that every recognised member must be
    right. */
module BundleRepeats {
  import opened Wrappers
  import opened Json
  import opened BundleModel
  import opened BundleSchema
  import opened BundleMeaning
  import opened BundleValues
  import opened BundleAlike
  import opened BundleUnknown

  /** The plain reading: every occurrence of a recognised key has the right type and range, at
      every level, and required keys are there. */
  predicate EveryConforms(v: Value, k: Kind)
    decreases k
  {
    match k
    case AList(item) => v.Arr? && forall i :: 0 <= i < |v.items| ==> EveryConforms(v.items[i], item)
    case ARecord(fields) => v.Obj? && forall i :: 0 <= i < |fields| ==> FieldEvery(v.members, fields[i])
    case _ => Conforms(v, k)
  }

  predicate FieldEvery(ms: seq<Member>, f: Field)
    decreases f
  {
    && (forall j :: 0 <= j < |ms| && ms[j].key == f.key ==> EveryConforms(ms[j].value, f.kind))
    && (f.rule.Required? ==> Find(ms, f.key).Some?)
  }

  /** No key that is looked up by name occurs twice, at any level. */
  predicate Unrepeated(v: Value, k: Kind)
    decreases k
  {
    match k
    case AList(item) => v.Arr? ==> forall i :: 0 <= i < |v.items| ==> Unrepeated(v.items[i], item)
    case ARecord(fields) => v.Obj? ==> forall i :: 0 <= i < |fields| ==> FieldUnrepeated(v.members, fields[i])
    case _ => true
  }

  predicate FieldUnrepeated(ms: seq<Member>, f: Field)
    decreases f
  {
    && (f.rule.Every? || |At(ms, f.key)| <= 1)
    && (forall j :: 0 <= j < |ms| && ms[j].key == f.key ==> Unrepeated(ms[j].value, f.kind))
  }

  lemma {:induction false} FindFirst(ms: seq<Member>, key: string)
    ensures Find(ms, key).Some? <==> exists j :: 0 <= j < |ms| && ms[j].key == key
    ensures Find(ms, key).Some? ==> exists j :: 0 <= j < |ms| && ms[j].key == key && ms[j].value == Find(ms, key).value
  {
    if ms != [] {
      FindFirst(ms[1..], key);
      if ms[0].key != key {
        if j :| 0 <= j < |ms[1..]| && ms[1..][j].key == key && ms[1..][j].value == Find(ms[1..], key).value { assert ms[j + 1] == ms[1..][j]; }
        if j :| 0 <= j < |ms| && ms[j].key == key { assert ms[1..][j - 1] == ms[j]; }
      }
    }
  }

  lemma {:induction false} OnlyOne(ms: seq<Member>, j: nat)
    requires j < |ms| && |At(ms, ms[j].key)| <= 1
    ensures Find(ms, ms[j].key) == Some(ms[j].value)
  {
    if j > 0 {
      var key := ms[j].key;
      assert ms[1..][j - 1] == ms[j];
      AtPresent(ms[1..], j - 1);
      assert ms[0].key != key;
      OnlyOne(ms[1..], j - 1);
    }
  }

  lemma {:induction false} AtPresent(ms: seq<Member>, j: nat)
    requires j < |ms|
    ensures |At(ms, ms[j].key)| >= 1
  {
    if j > 0 { AtPresent(ms[1..], j - 1); }
  }

  /** The plain reading is never weaker than what the loader asks. */
  lemma {:induction false} EveryIsEnough(v: Value, k: Kind)
    requires EveryConforms(v, k)
    ensures Conforms(v, k)
    decreases k
  {
    match k
    case AList(item) =>
      forall i | 0 <= i < |v.items| ensures Conforms(v.items[i], item) { EveryIsEnough(v.items[i], item); }
    case ARecord(fields) =>
      forall i | 0 <= i < |fields| ensures FieldConforms(v.members, fields[i]) { FieldEveryIsEnough(v.members, fields[i]); }
    case _ =>
  }

  lemma {:induction false} FieldEveryIsEnough(ms: seq<Member>, f: Field)
    requires FieldEvery(ms, f)
    ensures FieldConforms(ms, f)
    decreases f
  {
    forall j | 0 <= j < |ms| && ms[j].key == f.key ensures Conforms(ms[j].value, f.kind) { EveryIsEnough(ms[j].value, f.kind); }
    FindFirst(ms, f.key);
  }

  /** Without repetitions it is exactly what the loader asks. */
  lemma {:induction false} UnrepeatedExact(v: Value, k: Kind)
    requires Unrepeated(v, k) && Conforms(v, k)
    ensures EveryConforms(v, k)
    decreases k
  {
    match k
    case AList(item) =>
      forall i | 0 <= i < |v.items| ensures EveryConforms(v.items[i], item) { UnrepeatedExact(v.items[i], item); }
    case ARecord(fields) =>
      forall i | 0 <= i < |fields| ensures FieldEvery(v.members, fields[i]) {
        assert FieldConforms(v.members, fields[i]) && FieldUnrepeated(v.members, fields[i]);
        FieldUnrepeatedExact(v.members, fields[i]);
      }
    case _ =>
  }

  lemma {:induction false} FieldUnrepeatedExact(ms: seq<Member>, f: Field)
    requires FieldUnrepeated(ms, f) && FieldConforms(ms, f)
    ensures FieldEvery(ms, f)
    decreases f
  {
    forall j | 0 <= j < |ms| && ms[j].key == f.key ensures EveryConforms(ms[j].value, f.kind) {
      if !f.rule.Every? { OnlyOne(ms, j); }
      UnrepeatedExact(ms[j].value, f.kind);
    }
  }

  /** A document that repeats no key looked up by name is accepted if and only if every
      recognised member at every level has the right type and range. */
  lemma AcceptedIffEvery(v: Value, b: Config)
    requires Unrepeated(v, ConfigKind)
    ensures LoadConfig(v, b).ok <==> EveryConforms(v, ConfigKind)
  {
    AcceptedIffConforms(v, b);
    if Conforms(v, ConfigKind) { UnrepeatedExact(v, ConfigKind); }
    if EveryConforms(v, ConfigKind) { EveryIsEnough(v, ConfigKind); }
  }

  // ---- lists looked up by name ----

  lemma OneOrNone(vs: seq<Value>)
    requires |vs| <= 1
    ensures vs == [] || vs == [vs[0]]
  {
  }

  /** A capability list that occurs at most once is the joined arrays of its key. */
  lemma CapabilityJoins(ms: seq<Member>, key: string)
    requires |At(ms, key)| <= 1
    ensures CapabilityIn(ms, key) == Gather(StringsIn, At(ms, key))
  {
    FindAt(ms, key);
    OneOrNone(At(ms, key));
    if At(ms, key) != [] { GatherOne(StringsIn, At(ms, key)[0]); }
  }

  lemma LimitsJoin(ms: seq<Member>)
    requires |At(ms, "rlimits")| <= 1
    ensures AllRLimits(ms, At(ms, "rlimits")) == Gather(RLimitsIn, At(ms, "rlimits"))
  {
    FindAt(ms, "rlimits");
    OneOrNone(At(ms, "rlimits"));
    if At(ms, "rlimits") != [] {
      var v := At(ms, "rlimits")[0];
      GatherOne(RLimitsIn, v);
      RLimitsOne(ms, v);
    }
  }

  // ---- and when they are repeated ----

  const ALimit := Obj([Member("type", Str("t")), Member("soft", Int(1)), Member("hard", Int(2))])

  const Limits := Member("rlimits", Arr([ALimit]))
  const NoLimits := Member("rlimits", Null)

  lemma ALimitLoads()
    ensures RLimitOf(ALimit) == Some(RLimit("t", 1, 2))
    ensures RLimitsIn(Limits.value) == [RLimit("t", 1, 2)]
    ensures Conforms(Limits.value, RLimitsField.kind)
  {
    var ms := ALimit.members;
    assert Find(ms, "type") == Some(Str("t"));
    assert ms[1..] == [Member("soft", Int(1)), Member("hard", Int(2))] && ms[1..][1..] == [Member("hard", Int(2))];
    assert Find(ms, "soft") == Some(Int(1));
    assert Find(ms, "hard") == Some(Int(2));
    assert [ALimit][1..] == [];
    GatherOne(RLimitIn, ALimit);
    RLimitConforms(ALimit);
  }

  /** One list of limits, and then more members of that name which are no lists at all. */
  function Repeated(n: nat): seq<Member>
    requires n >= 1
  {
    [Limits] + Nothing(n - 1)
  }

  function Nothing(n: nat): seq<Member> { if n == 0 then [] else [NoLimits] + Nothing(n - 1) }

  lemma {:induction false} NothingThere(n: nat)
    ensures |Nothing(n)| == n && |At(Nothing(n), "rlimits")| == n && Gather(RLimitsIn, At(Nothing(n), "rlimits")) == []
    ensures forall j :: 0 <= j < n ==> Nothing(n)[j] == NoLimits
  {
    if n > 0 {
      NothingThere(n - 1);
      assert Nothing(n)[1..] == Nothing(n - 1);
      GatherCons(RLimitsIn, Null, At(Nothing(n - 1), "rlimits"));
    }
  }

  lemma RepeatedConforms(n: nat)
    requires n >= 1
    ensures Conforms(Obj(Repeated(n)), ARecord(ProcessFields))
  {
    var ms := Repeated(n);
    NothingThere(n - 1);
    ALimitLoads();
    forall j | 0 <= j < |ms| ensures MemberOk(ms[j], PlainProcessFields) {
      forall i | 0 <= i < |PlainProcessFields| ensures PlainProcessFields[i].key != "rlimits" { ProcessKeyAt(i); }
    }
    RecordByMember(ms, PlainProcessFields);
    RecordAppend(ms, PlainProcessFields, RLimitsField);
  }

  lemma {:induction false} FirstAgain(whole: seq<Member>, vs: seq<Value>, l: RLimit)
    requires Find(whole, "rlimits").Some? && RLimitsIn(Find(whole, "rlimits").value) == [l]
    ensures |AllRLimits(whole, vs)| == |vs|
  {
    if vs != [] { FirstAgain(whole, vs[1..], l); }
  }

  /** In such a process the first list is loaded once for each of them. */
  lemma RepeatedLoads(n: nat)
    requires n >= 1
    ensures var ms := Repeated(n);
            && |At(ms, "rlimits")| == n && |AllRLimits(ms, At(ms, "rlimits"))| == n && |Gather(RLimitsIn, At(ms, "rlimits"))| == 1
            && (n >= 2 ==> !FieldEvery(ms, RLimitsField))
  {
    var ms := Repeated(n);
    ALimitLoads();
    NothingThere(n - 1);
    assert ms[1..] == Nothing(n - 1);
    GatherCons(RLimitsIn, Limits.value, At(Nothing(n - 1), "rlimits"));
    FirstAgain(ms, At(ms, "rlimits"), RLimit("t", 1, 2));
    if n >= 2 { assert ms[1] == NoLimits; }
  }

  /** In every accepted process with so many "rlimits" members, the limits loaded are their
      joined arrays. */
  ghost predicate LimitsAreJoined(n: nat) {
    forall ms: seq<Member> :: |At(ms, "rlimits")| == n && Conforms(Obj(ms), ARecord(ProcessFields)) ==>
      AllRLimits(ms, At(ms, "rlimits")) == Gather(RLimitsIn, At(ms, "rlimits"))
  }

  /** That is so exactly if there is at most one of them. */
  lemma LimitsJoinExactly(n: nat)
    ensures LimitsAreJoined(n) <==> n <= 1
  {
    if n <= 1 {
      forall ms: seq<Member> | |At(ms, "rlimits")| == n && Conforms(Obj(ms), ARecord(ProcessFields))
        ensures AllRLimits(ms, At(ms, "rlimits")) == Gather(RLimitsIn, At(ms, "rlimits")) { LimitsJoin(ms); }
    } else {
      RepeatedConforms(n);
      RepeatedLoads(n);
      assert |At(Repeated(n), "rlimits")| == n;
    }
  }

  lemma TwiceMeans(ms: seq<Member>)
    requires ms == [Limits, NoLimits]
    ensures Repeated(2) == ms && AllRLimits(ms, At(ms, "rlimits")) == [RLimit("t", 1, 2), RLimit("t", 1, 2)]
  {
    assert Nothing(1) == [NoLimits] + Nothing(0);
    ALimitLoads();
    assert ms[1..] == [NoLimits] && [NoLimits][1..] == [];
    assert At(ms[1..], "rlimits") == [Null] by { AtOne(NoLimits, "rlimits"); }
    assert At(ms, "rlimits") == [Limits.value] + [Null] == [Limits.value, Null];
    assert [Limits.value, Null][1..] == [Null];
    RLimitsOne(ms, Null);
  }

  lemma TwiceIsWrong(ms: seq<Member>)
    requires !FieldEvery(ms, RLimitsField)
    ensures !EveryConforms(Obj(ms), ARecord(ProcessFields))
  {
    assert ProcessFields[9] == RLimitsField;
  }

  /** The smallest such process: one limit is loaded twice, and a member that is no list is
      accepted. */
  lemma LimitLoadedTwice(p: Process)
    requires p.rlimits == []
    ensures var v := Obj([Limits, NoLimits]);
            && LoadProcess(v, p).ok && LoadProcess(v, p).acc.rlimits == [RLimit("t", 1, 2), RLimit("t", 1, 2)]
            && !EveryConforms(v, ARecord(ProcessFields))
  {
    var ms := [Limits, NoLimits];
    TwiceMeans(ms);
    RepeatedConforms(2);
    RepeatedLoads(2);
    TwiceIsWrong(ms);
    ProcessConforms(Obj(ms), p);
    ProcessMeans(Obj(ms), p);
  }

  // ---- capabilities ----

  function Copies(key: string, n: nat): seq<Member> {
    if n == 0 then [] else [Member(key, Arr([Str("x")]))] + Copies(key, n - 1)
  }

  lemma {:induction false} CopiesThere(key: string, n: nat)
    ensures |At(Copies(key, n), key)| == n && |Gather(StringsIn, At(Copies(key, n), key))| == n
    ensures forall j :: 0 <= j < |Copies(key, n)| ==> Copies(key, n)[j] == Member(key, Arr([Str("x")]))
  {
    if n > 0 {
      CopiesThere(key, n - 1);
      assert Copies(key, n)[1..] == Copies(key, n - 1);
      GatherOne(StringIn, Str("x"));
      GatherCons(StringsIn, Arr([Str("x")]), At(Copies(key, n - 1), key));
    }
  }

  /** In every object with so many lists of this name, all of them lists of strings, the names
      loaded are the joined arrays. */
  ghost predicate NamesAreJoined(key: string, n: nat) {
    forall ms: seq<Member> :: |At(ms, key)| == n && FieldEvery(ms, Field(key, Strings, First)) ==>
      CapabilityIn(ms, key) == Gather(StringsIn, At(ms, key))
  }

  /** That is so exactly if there is at most one of them: only the first counts. */
  lemma NamesJoinExactly(key: string, n: nat)
    ensures NamesAreJoined(key, n) <==> n <= 1
  {
    if n <= 1 {
      forall ms: seq<Member> | |At(ms, key)| == n ensures CapabilityIn(ms, key) == Gather(StringsIn, At(ms, key)) { CapabilityJoins(ms, key); }
    } else {
      var ms := Copies(key, n);
      CopiesThere(key, n);
      assert FieldEvery(ms, Field(key, Strings, First));
      GatherOne(StringIn, Str("x"));
      assert |CapabilityIn(ms, key)| == 1;
      assert |At(ms, key)| == n;
    }
  }
}
