/** Order independence: members with distinct keys may stand in any order, at any depth. */
module BundleOrder {
  import opened Json
  import opened BundleModel
  import opened BundleSchema
  import opened BundleMeaning
  import opened BundleValues
  import opened BundleAlike

  predicate DistinctKeys(ms: seq<Member>) {
    forall i, j :: 0 <= i < j < |ms| ==> ms[i].key != ms[j].key
  }

  /** The two values differ at most in the order of members, at any depth, and only in
      objects whose keys are distinct. */
  ghost predicate Reordered(v: Value, w: Value)
    decreases v
  {
    || v == w
    || (v.Arr? && w.Arr? && |v.items| == |w.items| && forall i :: 0 <= i < |v.items| ==> Reordered(v.items[i], w.items[i]))
    || (&& v.Obj? && w.Obj? && DistinctKeys(v.members) && DistinctKeys(w.members)
        && (forall i :: 0 <= i < |v.members| ==> HasPartner(v.members[i], w.members))
        && (forall j :: 0 <= j < |w.members| ==> HasKey(v.members, w.members[j].key)))
  }

  ghost predicate HasPartner(m: Member, ns: seq<Member>)
    decreases m
  {
    exists j :: 0 <= j < |ns| && m.key == ns[j].key && Reordered(m.value, ns[j].value)
  }

  ghost predicate HasKey(ms: seq<Member>, key: string) { exists i :: 0 <= i < |ms| && ms[i].key == key }

  /** The case of two objects. */
  ghost predicate Matched(ms: seq<Member>, ns: seq<Member>) {
    && DistinctKeys(ms) && DistinctKeys(ns)
    && (forall i :: 0 <= i < |ms| ==> HasPartner(ms[i], ns))
    && (forall j :: 0 <= j < |ns| ==> HasKey(ms, ns[j].key))
  }

  /** Any permutation of members with distinct keys is such a reordering. */
  lemma PermutedIsReordered(ms: seq<Member>, ns: seq<Member>)
    requires DistinctKeys(ms) && multiset(ms) == multiset(ns)
    ensures Reordered(Obj(ms), Obj(ns))
  {
    forall i | 0 <= i < |ms| ensures HasPartner(ms[i], ns) {
      assert ms[i] in multiset(ns);
      var j :| 0 <= j < |ns| && ns[j] == ms[i];
      assert Reordered(ms[i].value, ns[j].value);
    }
    forall j | 0 <= j < |ns| ensures HasKey(ms, ns[j].key) {
      assert ns[j] in multiset(ms);
      var i :| 0 <= i < |ms| && ms[i] == ns[j];
    }
    PermutedDistinct(ms, ns);
  }

  lemma PermutedDistinct(ms: seq<Member>, ns: seq<Member>)
    requires DistinctKeys(ms) && multiset(ms) == multiset(ns)
    ensures DistinctKeys(ns)
  {
    forall i, j | 0 <= i < j < |ns| ensures ns[i].key != ns[j].key {
      if ns[i].key == ns[j].key {
        assert ns[i] in multiset(ms) && ns[j] in multiset(ms);
        var a :| 0 <= a < |ms| && ms[a] == ns[i];
        var b :| 0 <= b < |ms| && ms[b] == ns[j];
        assert a == b;
        TwiceInside(ns, i, j);
        OnceInside(ms, a);
      }
    }
  }

  lemma TwiceInside(ns: seq<Member>, i: nat, j: nat)
    requires i < j < |ns| && ns[i] == ns[j]
    ensures multiset(ns)[ns[i]] >= 2
  {
    assert ns == ns[..j] + [ns[j]] + ns[j + 1..];
    assert ns[..j][i] == ns[i];
    assert ns[i] in multiset(ns[..j]);
  }

  lemma OnceInside(ms: seq<Member>, a: nat)
    requires a < |ms| && DistinctKeys(ms)
    ensures multiset(ms)[ms[a]] == 1
  {
    assert ms == ms[..a] + [ms[a]] + ms[a + 1..];
    assert ms[a] !in ms[..a] && ms[a] !in ms[a + 1..];
  }

  lemma {:induction false} AtAbsent(ms: seq<Member>, key: string)
    requires forall i :: 0 <= i < |ms| ==> ms[i].key != key
    ensures At(ms, key) == []
  {
    if ms != [] { AtAbsent(ms[1..], key); }
  }

  lemma {:induction false} AtDistinct(ms: seq<Member>, i: nat)
    requires i < |ms| && DistinctKeys(ms)
    ensures At(ms, ms[i].key) == [ms[i].value]
  {
    if i == 0 {
      AtAbsent(ms[1..], ms[0].key);
    } else {
      AtDistinct(ms[1..], i - 1);
    }
  }

  lemma {:induction false} Symmetric(v: Value, w: Value)
    requires Reordered(v, w)
    ensures Reordered(w, v)
    decreases v
  {
    if v == w {
    } else if v.Arr? {
      forall i | 0 <= i < |v.items| ensures Reordered(w.items[i], v.items[i]) { Symmetric(v.items[i], w.items[i]); }
    } else {
      assert Matched(v.members, w.members);
      forall j | 0 <= j < |w.members| ensures HasPartner(w.members[j], v.members) {
        var i :| 0 <= i < |v.members| && v.members[i].key == w.members[j].key;
        PartnerAt(v.members, w.members, i, j);
        Symmetric(v.members[i].value, w.members[j].value);
      }
      forall i | 0 <= i < |v.members| ensures HasKey(w.members, v.members[i].key) { assert HasPartner(v.members[i], w.members); }
    }
  }

  lemma PartnerAt(ms: seq<Member>, ns: seq<Member>, i: nat, j: nat)
    requires Matched(ms, ns) && i < |ms| && j < |ns| && ms[i].key == ns[j].key
    ensures Reordered(ms[i].value, ns[j].value)
  {
    assert HasPartner(ms[i], ns);
    var k :| 0 <= k < |ns| && ms[i].key == ns[k].key && Reordered(ms[i].value, ns[k].value);
    assert k == j;
  }

  /** Reordering a document that conforms keeps what is under each key the loader looks at. */
  lemma {:induction false} ReorderedAlike(v: Value, w: Value, k: Kind)
    requires Reordered(v, w) && Conforms(v, k)
    ensures Alike(v, w, k)
    decreases k
  {
    if v != w {
      match k
      case AList(item) =>
        forall i | 0 <= i < |v.items| ensures Alike(v.items[i], w.items[i], item) {
          ReorderedAlike(v.items[i], w.items[i], item);
        }
        assert AlikeSeq(v.items, w.items, item);
      case ARecord(fields) =>
        assert Matched(v.members, w.members);
        forall i | 0 <= i < |fields| ensures FieldAlike(v.members, w.members, fields[i]) {
          assert FieldConforms(v.members, fields[i]);
          ReorderedField(v.members, w.members, fields[i]);
        }
      case _ =>
    }
  }

  lemma ConformsAt(ms: seq<Member>, i: nat, f: Field)
    requires DistinctKeys(ms) && i < |ms| && ms[i].key == f.key && FieldConforms(ms, f)
    ensures Conforms(ms[i].value, f.kind)
  {
    AtDistinct(ms, i);
    FindAt(ms, f.key);
  }

  lemma {:induction false} ReorderedField(ms: seq<Member>, ns: seq<Member>, f: Field)
    requires Matched(ms, ns) && FieldConforms(ms, f)
    ensures FieldAlike(ms, ns, f)
    decreases f
  {
    if i :| 0 <= i < |ms| && ms[i].key == f.key {
      assert HasPartner(ms[i], ns);
      var j :| 0 <= j < |ns| && ms[i].key == ns[j].key && Reordered(ms[i].value, ns[j].value);
      AtDistinct(ms, i);
      AtDistinct(ns, j);
      ConformsAt(ms, i, f);
      ReorderedAlike(ms[i].value, ns[j].value, f.kind);
      assert AlikeSeq(At(ms, f.key), At(ns, f.key), f.kind);
    } else {
      AtAbsent(ms, f.key);
      AtAbsent(ns, f.key);
      SameField([], f);
    }
  }

  // ---- the mappings ----

  /** Two lists woven together in the order the keys give. */
  function Weave(keys: seq<bool>, us: seq<Value>, gs: seq<Value>): seq<Value> {
    if keys == [] then []
    else if keys[0] then (if us == [] then [] else [us[0]] + Weave(keys[1..], us[1..], gs))
    else if gs == [] then [] else [gs[0]] + Weave(keys[1..], us, gs[1..])
  }

  lemma MappingStep(ms: seq<Member>)
    requires ms != []
    ensures var x, u, g, t := ms[0].value, "uidMappings", "gidMappings", ms[1..];
            if ms[0].key == u then
              MappingKeys(ms) == [true] + MappingKeys(t) && At(ms, u) == [x] + At(t, u) && At(ms, g) == At(t, g) &&
              AtEither(ms, u, g) == [x] + AtEither(t, u, g)
            else if ms[0].key == g then
              MappingKeys(ms) == [false] + MappingKeys(t) && At(ms, u) == At(t, u) && At(ms, g) == [x] + At(t, g) &&
              AtEither(ms, u, g) == [x] + AtEither(t, u, g)
            else
              MappingKeys(ms) == MappingKeys(t) && At(ms, u) == At(t, u) && At(ms, g) == At(t, g) &&
              AtEither(ms, u, g) == AtEither(t, u, g)
  {
  }

  lemma WeaveStep(ks: seq<bool>, x: Value, us: seq<Value>, gs: seq<Value>)
    ensures Weave([true] + ks, [x] + us, gs) == [x] + Weave(ks, us, gs)
    ensures Weave([false] + ks, us, [x] + gs) == [x] + Weave(ks, us, gs)
  {
    assert ([true] + ks)[1..] == ks && ([false] + ks)[1..] == ks && ([x] + us)[1..] == us && ([x] + gs)[1..] == gs;
  }

  lemma {:induction false} EitherIsWoven(ms: seq<Member>)
    ensures AtEither(ms, "uidMappings", "gidMappings") == Weave(MappingKeys(ms), At(ms, "uidMappings"), At(ms, "gidMappings"))
  {
    if ms != [] {
      MappingStep(ms);
      EitherIsWoven(ms[1..]);
      WeaveStep(MappingKeys(ms[1..]), ms[0].value, At(ms[1..], "uidMappings"), At(ms[1..], "gidMappings"));
    }
  }

  lemma {:induction false} WeaveAlike(keys: seq<bool>, us: seq<Value>, gs: seq<Value>, vs: seq<Value>, hs: seq<Value>, k: Kind)
    requires AlikeSeq(us, vs, k) && AlikeSeq(gs, hs, k)
    ensures AlikeSeq(Weave(keys, us, gs), Weave(keys, vs, hs), k)
  {
    if keys == [] {
    } else if keys[0] {
      if us != [] { WeaveAlike(keys[1..], us[1..], gs, vs[1..], hs, k); }
    } else {
      if gs != [] { WeaveAlike(keys[1..], us, gs[1..], vs, hs[1..], k); }
    }
  }

  lemma SameMappings(ms: seq<Member>, ns: seq<Member>)
    requires RecordAlike(ms, ns, LinuxFields) && MappingKeys(ms) == MappingKeys(ns)
    ensures Gather(MappingsIn, AtEither(ms, "uidMappings", "gidMappings")) ==
            Gather(MappingsIn, AtEither(ns, "uidMappings", "gidMappings"))
  {
    var k := AList(ARecord(MappingFields));
    FieldParts(ms, ns, LinuxFields[1]);
    FieldParts(ms, ns, LinuxFields[2]);
    EitherIsWoven(ms);
    EitherIsWoven(ns);
    WeaveAlike(MappingKeys(ms), At(ms, "uidMappings"), At(ms, "gidMappings"), At(ns, "uidMappings"), At(ns, "gidMappings"), k);
    BlindMappings();
    GatherSame(MappingsIn, AtEither(ms, "uidMappings", "gidMappings"), AtEither(ns, "uidMappings", "gidMappings"));
  }

  /** Alike documents whose mapping keys follow each other in the same order load exactly
      the same. */
  lemma AlikeLoadsSame(v: Value, w: Value, b: Config)
    requires Alike(v, w, ConfigKind) && LoadConfig(v, b).ok
    requires v.Obj? && w.Obj? ==> MappingKeys(LinuxMembers(v)) == MappingKeys(LinuxMembers(w))
    ensures LoadConfig(w, b) == LoadConfig(v, b)
  {
    AlikeLoadsAlike(v, w, b);
    if v != w {
      LoaderComputesMeaning(v, b);
      LoaderComputesMeaning(w, b);
      RecordParts(v, w, ConfigFields);
      SameConfig(v.members, w.members, b);
      SameMappings(LinuxMembers(v), LinuxMembers(w));
    }
  }

  // ---- the theorems ----

  /** Reordering never changes the verdict. On acceptance the bundle is the same except that
      the one list of mappings may be rearranged, and it is the same altogether if user and
      group mappings keep their order. */
  lemma OrderIndependence(v: Value, w: Value, b: Config)
    requires Reordered(v, w)
    ensures LoadConfig(v, b).ok == LoadConfig(w, b).ok
    ensures LoadConfig(v, b).ok ==>
              var r, s := LoadConfig(v, b).acc, LoadConfig(w, b).acc;
              && r == s.(linux := s.linux.(uidMappings := r.linux.uidMappings))
              && multiset(r.linux.uidMappings) == multiset(s.linux.uidMappings)
              && (MappingKeys(LinuxMembers(v)) == MappingKeys(LinuxMembers(w)) ==> r == s)
  {
    AcceptedIffConforms(v, b);
    AcceptedIffConforms(w, b);
    if Conforms(v, ConfigKind) {
      ReorderedAlike(v, w, ConfigKind);
      AlikeLoadsAlike(v, w, b);
      if MappingKeys(LinuxMembers(v)) == MappingKeys(LinuxMembers(w)) { AlikeLoadsSame(v, w, b); }
    } else if Conforms(w, ConfigKind) {
      Symmetric(v, w);
      ReorderedAlike(w, v, ConfigKind);
      AlikeLoadsAlike(w, v, b);
    }
  }

  lemma WeaveOneEach(ks: seq<bool>, u: Value, g: Value)
    requires |ks| == 2 && true in ks && false in ks
    ensures ks == [true, false] || ks == [false, true]
    ensures Weave(ks, [u], [g]) == if ks == [true, false] then [u, g] else [g, u]
  {
    if ks[0] {
      assert ks == [true] + [false];
      WeaveStep([false], u, [], [g]);
      WeaveStep([], g, [], []);
      assert [u] + [] == [u] && [g] + [] == [g] && [false] + [] == [false];
    } else {
      assert ks == [false] + [true];
      WeaveStep([true], g, [u], []);
      WeaveStep([], u, [], []);
      assert [u] + [] == [u] && [g] + [] == [g] && [true] + [] == [true];
    }
  }

  lemma OneEach(ms: seq<Member>, u: Value, g: Value)
    requires At(ms, "uidMappings") == [u] && At(ms, "gidMappings") == [g]
    ensures MappingKeys(ms) == [true, false] || MappingKeys(ms) == [false, true]
    ensures Gather(MappingsIn, AtEither(ms, "uidMappings", "gidMappings")) ==
            if MappingKeys(ms) == [true, false] then MappingsIn(u) + MappingsIn(g) else MappingsIn(g) + MappingsIn(u)
  {
    KeyCounts(ms);
    EitherIsWoven(ms);
    WeaveOneEach(MappingKeys(ms), u, g);
    GatherTwo(u, g);
    GatherTwo(g, u);
  }

  lemma GatherTwo(x: Value, y: Value)
    ensures Gather(MappingsIn, [x, y]) == MappingsIn(x) + MappingsIn(y)
  {
    assert [x, y][1..] == [y] && [y][1..] == [];
    assert Gather(MappingsIn, [y]) == MappingsIn(y) + Gather(MappingsIn, []);
  }

  lemma {:induction false} KeyCounts(ms: seq<Member>)
    ensures |MappingKeys(ms)| == |At(ms, "uidMappings")| + |At(ms, "gidMappings")|
    ensures (true in MappingKeys(ms)) == (At(ms, "uidMappings") != [])
    ensures (false in MappingKeys(ms)) == (At(ms, "gidMappings") != [])
  {
    if ms != [] {
      KeyCounts(ms[1..]);
      MappingStep(ms);
    }
  }

  /** What the loaded list of mappings is, with one list of each kind. */
  function Mapped(v: Value): seq<IdMapping>
    requires v.Obj?
  {
    Gather(MappingsIn, AtEither(LinuxMembers(v), "uidMappings", "gidMappings"))
  }

  lemma MappedLoads(v: Value, b: Config)
    requires LoadConfig(v, b).ok
    ensures LoadConfig(v, b).acc.linux.uidMappings == b.linux.uidMappings + Mapped(v)
  {
    LoaderComputesMeaning(v, b);
  }

  lemma SwappedLists(v: Value, w: Value, u: Value, g: Value)
    requires Alike(v, w, ConfigKind) && v.Obj? && w.Obj?
    requires At(LinuxMembers(v), "uidMappings") == [u] && At(LinuxMembers(v), "gidMappings") == [g]
    requires MappingKeys(LinuxMembers(v)) != MappingKeys(LinuxMembers(w))
    ensures {Mapped(v), Mapped(w)} == {MappingsIn(u) + MappingsIn(g), MappingsIn(g) + MappingsIn(u)}
  {
    var ms, ns := LinuxMembers(v), LinuxMembers(w);
    RecordParts(v, w, ConfigFields);
    SameObjects(v.members, w.members, ConfigFields, 5, LinuxFields);
    FieldParts(ms, ns, LinuxFields[1]);
    FieldParts(ms, ns, LinuxFields[2]);
    var us, gs := At(ns, "uidMappings"), At(ns, "gidMappings");
    assert us == [us[0]] && gs == [gs[0]];
    OneEach(ms, u, g);
    OneEach(ns, us[0], gs[0]);
    BlindMappings();
  }

  lemma ReorderedAccepted(v: Value, w: Value, b: Config)
    requires Reordered(v, w) && LoadConfig(v, b).ok
    ensures Alike(v, w, ConfigKind)
  {
    AcceptedIffConforms(v, b);
    ReorderedAlike(v, w, ConfigKind);
  }

  lemma SameButMappings(r: Config, s: Config, a: seq<IdMapping>, x: seq<IdMapping>, y: seq<IdMapping>)
    requires r == s.(linux := s.linux.(uidMappings := r.linux.uidMappings))
    requires r.linux.uidMappings == a + x && s.linux.uidMappings == a + y
    ensures r == s <==> x == y
  {
    Cancel(a, x, y);
  }

  lemma SwapOneEach(v: Value, w: Value, b: Config, u: Value, g: Value)
    requires Reordered(v, w) && LoadConfig(v, b).ok && w.Obj?
    requires At(LinuxMembers(v), "uidMappings") == [u] && At(LinuxMembers(v), "gidMappings") == [g]
    ensures LoadConfig(v, b).acc == LoadConfig(w, b).acc <==>
              || MappingKeys(LinuxMembers(v)) == MappingKeys(LinuxMembers(w))
              || MappingsIn(u) + MappingsIn(g) == MappingsIn(g) + MappingsIn(u)
  {
    OrderIndependence(v, w, b);
    var r, s := LoadConfig(v, b).acc, LoadConfig(w, b).acc;
    MappedLoads(v, b);
    MappedLoads(w, b);
    SameButMappings(r, s, b.linux.uidMappings, Mapped(v), Mapped(w));
    if MappingKeys(LinuxMembers(v)) != MappingKeys(LinuxMembers(w)) {
      ReorderedAccepted(v, w, b);
      SwappedLists(v, w, u, g);
      assert r == s <==> MappingsIn(u) + MappingsIn(g) == MappingsIn(g) + MappingsIn(u) by {
        TwoOfTwo(Mapped(v), Mapped(w), MappingsIn(u) + MappingsIn(g), MappingsIn(g) + MappingsIn(u));
      }
    }
  }

  /** At most one list of each kind, and which of them there are, give the keys in order. */
  lemma FewKeys(ms: seq<Member>)
    requires |At(ms, "uidMappings")| <= 1 && |At(ms, "gidMappings")| <= 1
    requires At(ms, "uidMappings") == [] || At(ms, "gidMappings") == []
    ensures MappingKeys(ms) == if At(ms, "uidMappings") != [] then [true] else if At(ms, "gidMappings") != [] then [false] else []
  {
    KeyCounts(ms);
  }

  lemma AtMostOne(ms: seq<Member>, key: string)
    requires DistinctKeys(ms)
    ensures |At(ms, key)| <= 1 && (At(ms, key) != [] <==> HasKey(ms, key))
  {
    if i :| 0 <= i < |ms| && ms[i].key == key { AtDistinct(ms, i); } else { AtAbsent(ms, key); }
  }

  lemma SameKeys(ms: seq<Member>, ns: seq<Member>, key: string)
    requires Matched(ms, ns)
    ensures HasKey(ms, key) <==> HasKey(ns, key)
  {
    if i :| 0 <= i < |ms| && ms[i].key == key { assert HasPartner(ms[i], ns); }
    if j :| 0 <= j < |ns| && ns[j].key == key { assert HasKey(ms, ns[j].key); }
  }

  lemma MatchedSwap(ms: seq<Member>, ns: seq<Member>)
    requires Matched(ms, ns) && MappingKeys(ms) != MappingKeys(ns)
    ensures |At(ms, "uidMappings")| == 1 && |At(ms, "gidMappings")| == 1
  {
    AtMostOne(ms, "uidMappings"); AtMostOne(ms, "gidMappings");
    AtMostOne(ns, "uidMappings"); AtMostOne(ns, "gidMappings");
    SameKeys(ms, ns, "uidMappings");
    SameKeys(ms, ns, "gidMappings");
    if At(ms, "uidMappings") == [] || At(ms, "gidMappings") == [] {
      FewKeys(ms);
      FewKeys(ns);
    }
  }

  lemma ReorderedSwap(x: Value, y: Value)
    requires Reordered(x, y) && MappingKeys(Inside([x])) != MappingKeys(Inside([y]))
    ensures |At(Inside([x]), "uidMappings")| == 1 && |At(Inside([x]), "gidMappings")| == 1
  {
    assert x.Obj? && y.Obj? by { assert [x][1..] == [] && [y][1..] == []; }
    InsideOne(x);
    InsideOne(y);
    MatchedSwap(x.members, y.members);
  }

  /** A reordering that changes the order of the mapping keys has one list of each kind. */
  lemma SwapHasOneEach(v: Value, w: Value)
    requires Reordered(v, w) && v.Obj? && w.Obj? && MappingKeys(LinuxMembers(v)) != MappingKeys(LinuxMembers(w))
    ensures |At(LinuxMembers(v), "uidMappings")| == 1 && |At(LinuxMembers(v), "gidMappings")| == 1
  {
    var ms, ns := v.members, w.members;
    assert Matched(ms, ns);
    SameKeys(ms, ns, "linux");
    if i :| 0 <= i < |ms| && ms[i].key == "linux" {
      var j :| 0 <= j < |ns| && ns[j].key == "linux";
      PartnerAt(ms, ns, i, j);
      AtDistinct(ms, i);
      AtDistinct(ns, j);
      ReorderedSwap(ms[i].value, ns[j].value);
    } else {
      AtMostOne(ms, "linux");
      AtMostOne(ns, "linux");
    }
  }

  /** The mappings of one kind, in document order. */
  function MappingsUnder(v: Value, key: string): seq<IdMapping>
    requires v.Obj?
  {
    Gather(MappingsIn, At(LinuxMembers(v), key))
  }

  /** A reordering gives the same bundle exactly if user and group mappings keep their order
      or the two lists commute. */
  lemma SwapExactly(v: Value, w: Value, b: Config)
    requires Reordered(v, w) && LoadConfig(v, b).ok
    ensures w.Obj?
    ensures var us, gs := MappingsUnder(v, "uidMappings"), MappingsUnder(v, "gidMappings");
            LoadConfig(v, b).acc == LoadConfig(w, b).acc <==>
              MappingKeys(LinuxMembers(v)) == MappingKeys(LinuxMembers(w)) || us + gs == gs + us
  {
    OrderIndependence(v, w, b);
    if MappingKeys(LinuxMembers(v)) != MappingKeys(LinuxMembers(w)) {
      SwapHasOneEach(v, w);
      var u, g := At(LinuxMembers(v), "uidMappings")[0], At(LinuxMembers(v), "gidMappings")[0];
      assert At(LinuxMembers(v), "uidMappings") == [u] && At(LinuxMembers(v), "gidMappings") == [g];
      GatherOne(MappingsIn, u);
      GatherOne(MappingsIn, g);
      SwapOneEach(v, w, b, u, g);
    }
  }

  lemma TwoOfTwo<T>(a: T, b: T, c: T, d: T)
    requires {a, b} == {c, d}
    ensures a == b <==> c == d
  {
    assert a in {c, d} && b in {c, d} && c in {a, b} && d in {a, b};
  }

  lemma Cancel<T>(a: seq<T>, x: seq<T>, y: seq<T>)
    ensures a + x == a + y <==> x == y
  {
    if a + x == a + y {
      assert x == (a + x)[|a|..] && y == (a + y)[|a|..];
    }
  }

  // ---- a document where the swap shows ----

  function OneMapping(id: int): Value { Arr([Obj([Member("containerID", Int(id))])]) }

  const UserMapping := Member("uidMappings", OneMapping(1))
  const GroupMapping := Member("gidMappings", OneMapping(2))

  lemma FoldOne<E, A>(f: (E, A, Member) -> Out<A>, e: E, m: Member, a: A)
    ensures Fold(f, e, [m], a) == f(e, a, m)
  {
    assert [m][1..] == [];
  }

  lemma FoldTwo<E, A>(f: (E, A, Member) -> Out<A>, e: E, m: Member, n: Member, a: A)
    requires f(e, a, m).ok
    ensures Fold(f, e, [m, n], a) == f(e, f(e, a, m).acc, n)
  {
    assert [m, n][1..] == [n];
    FoldOne(f, e, n, f(e, a, m).acc);
  }

  lemma OneMappingLoads(id: int, acc: seq<IdMapping>)
    requires 0 <= id <= 2
    ensures LoadMappings(OneMapping(id), acc) == Out(true, acc + [IdMapping(id, 0, 0)])
  {
    var m := Member("containerID", Int(id));
    FoldOne(MappingMember, (), m, NewMapping);
    assert [Obj([m])][1..] == [];
  }

  /** The mappings of one document and of its reordering come out in different orders. */
  lemma SwapReordersMappings(b: Config)
    requires b.linux.uidMappings == []
    ensures var v := Obj([Member("linux", Obj([UserMapping, GroupMapping]))]);
            var w := Obj([Member("linux", Obj([GroupMapping, UserMapping]))]);
            && Reordered(v, w) && LoadConfig(v, b).ok && LoadConfig(w, b).ok
            && LoadConfig(v, b).acc.linux.uidMappings == [IdMapping(1, 0, 0), IdMapping(2, 0, 0)]
            && LoadConfig(w, b).acc.linux.uidMappings == [IdMapping(2, 0, 0), IdMapping(1, 0, 0)]
  {
    LinuxLoads(UserMapping, 1, GroupMapping, 2, b.linux);
    LinuxLoads(GroupMapping, 2, UserMapping, 1, b.linux);
    WholeLoads(Obj([UserMapping, GroupMapping]), b);
    WholeLoads(Obj([GroupMapping, UserMapping]), b);
    SwapIsReordered();
  }

  lemma SwapIsReordered()
    ensures Reordered(Obj([Member("linux", Obj([UserMapping, GroupMapping]))]), Obj([Member("linux", Obj([GroupMapping, UserMapping]))]))
  {
    var x, y := [UserMapping, GroupMapping], [GroupMapping, UserMapping];
    assert UserMapping.key != GroupMapping.key;
    assert multiset(x) == multiset{UserMapping, GroupMapping} == multiset(y);
    PermutedIsReordered(x, y);
    var v, w := [Member("linux", Obj(x))], [Member("linux", Obj(y))];
    assert v[0].key == w[0].key && Reordered(v[0].value, w[0].value);
    assert HasPartner(v[0], w);
  }

  lemma LinuxLoads(m: Member, i: int, n: Member, j: int, x: Linux)
    requires || (m == UserMapping && i == 1 && n == GroupMapping && j == 2)
             || (m == GroupMapping && i == 2 && n == UserMapping && j == 1)
    requires x.uidMappings == []
    ensures LoadLinux(Obj([m, n]), x) == Out(true, x.(uidMappings := [IdMapping(i, 0, 0), IdMapping(j, 0, 0)]))
  {
    OneMappingLoads(i, []);
    var l := x.(uidMappings := [IdMapping(i, 0, 0)]);
    OneMappingLoads(j, l.uidMappings);
    assert LinuxMember((), x, m) == Out(true, l) by { assert [] + [IdMapping(i, 0, 0)] == [IdMapping(i, 0, 0)]; }
    FoldTwo(LinuxMember, (), m, n, x);
    assert [IdMapping(i, 0, 0)] + [IdMapping(j, 0, 0)] == [IdMapping(i, 0, 0), IdMapping(j, 0, 0)];
  }

  lemma WholeLoads(linux: Value, b: Config)
    ensures LoadConfig(Obj([Member("linux", linux)]), b) ==
            Out(LoadLinux(linux, b.linux).ok, b.(linux := LoadLinux(linux, b.linux).acc))
  {
    FoldOne(ConfigMember, (), Member("linux", linux), b);
  }
}
