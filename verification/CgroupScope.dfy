/** The systemd unit names a cgroups path gives (src/cgroup.cpp:147-167). */
module CgroupScope {
  import opened Wrappers

  /** Where the character first occurs at or after a position, which may lie past the end. */
  function Find(s: string, c: char, from: nat): (r: Option<nat>)
    ensures r.Some? ==> from <= r.value < |s| && s[r.value] == c && forall i :: from <= i < r.value ==> s[i] != c
    ensures r.None? ==> forall i :: from <= i < |s| ==> s[i] != c
    decreases |s| - from
  {
    if from >= |s| then None
    else if s[from] == c then Some(from)
    else Find(s, c, from + 1)
  }

  /** The part of the path behind the first colon, with one colon made a dash: the first at
      an index past the first colon's own index in the whole path. */
  function Unit(rest: string, firstColon: nat): string {
    match Find(rest, ':', firstColon + 1)
    case Some(i) => rest[i := '-']
    case None => rest
  }

  method Names(id: string, path: string) returns (scope: string, slice: string)
    ensures path == "" ==> scope == "runw-" + id + ".scope" && slice == ""
    ensures path != "" && ':' !in path ==> scope == path + ".scope" && slice == path
    ensures ':' in path ==> ':' !in slice && slice < path && path[|slice|] == ':'
                            && scope == Unit(path[|slice| + 1..], |slice|) + ".scope"
    ensures forall prefix, name :: ':' in path && path[|slice| + 1..] == prefix + ":" + name && ':' !in prefix && ':' !in name ==>
              scope == (if |prefix| > |slice| then prefix + "-" + name else prefix + ":" + name) + ".scope"
  {
    slice := "";
    if path == "" {
      scope := "runw-";
      scope := scope + id;
      scope := scope + ".scope";
    } else {
      var firstColon := Find(path, ':', 0);
      if firstColon == None {
        scope := path;
        scope := scope + ".scope";
        slice := path;
      } else {
        scope := path[firstColon.value + 1..];
        var secondColon := Find(scope, ':', firstColon.value + 1);
        if secondColon.Some? {
          scope := scope[secondColon.value := '-'];
        }
        scope := scope + ".scope";
        slice := path[..firstColon.value];
        forall prefix, name | path[|slice| + 1..] == prefix + ":" + name && ':' !in prefix && ':' !in name
          ensures scope == (if |prefix| > |slice| then prefix + "-" + name else prefix + ":" + name) + ".scope"
        {
          ThreeParts(slice, prefix, name);
        }
      }
    }
  }

  /** Slice, colon and unit put together again are the path, except that at most one colon
      has become a dash. */
  lemma {:induction false} Rejoined(slice: string, rest: string)
    ensures var path, again := slice + ":" + rest, slice + ":" + Unit(rest, |slice|);
            && |again| == |path|
            && forall i :: 0 <= i < |path| && again[i] != path[i] ==>
                 && again[i] == '-' && path[i] == ':'
                 && forall j :: 0 <= j < |path| && j != i ==> again[j] == path[j]
  {
    var path, again := slice + ":" + rest, slice + ":" + Unit(rest, |slice|);
    var from := |slice| + 1;
    assert forall i :: 0 <= i < from ==> again[i] == path[i];
    assert forall i :: from <= i < |path| ==> path[i] == rest[i - from] && again[i] == Unit(rest, |slice|)[i - from];
  }

  predicate OnlyColonAt(s: string, i: nat) {
    i < |s| && s[i] == ':' && forall j :: 0 <= j < |s| && j != i ==> s[j] != ':'
  }

  /** The unit has no colon left exactly when there was none, or a single one that the
      search reaches. */
  lemma ColonFree(rest: string, firstColon: nat)
    ensures ':' !in Unit(rest, firstColon) <==> ':' !in rest || exists i: nat :: OnlyColonAt(rest, i) && i > firstColon
  {
    var unit := Unit(rest, firstColon);
    match Find(rest, ':', firstColon + 1)
    case None =>
      assert unit == rest;
      assert forall i: nat :: OnlyColonAt(rest, i) ==> rest[i] == ':';
    case Some(k) =>
      assert unit[k] == '-' && rest[k] == ':';
      assert forall j :: 0 <= j < |rest| && j != k ==> unit[j] == rest[j];
      assert ':' !in unit <==> OnlyColonAt(rest, k);
  }

  lemma OneColon(b: string, c: string, from: nat)
    requires ':' !in b && ':' !in c
    ensures Find(b + ":" + c, ':', from) == if from <= |b| then Some(|b|) else None
  {
    var s := b + ":" + c;
    assert s[|b|] == ':';
    assert forall i :: 0 <= i < |s| && i != |b| ==> s[i] == if i < |b| then b[i] else c[i - |b| - 1];
  }

  /** A path slice:prefix:name gives the unit prefix-name exactly when the prefix is longer
      than the slice; otherwise the second colon stays. */
  lemma ThreeParts(slice: string, prefix: string, name: string)
    requires ':' !in slice && ':' !in prefix && ':' !in name
    ensures Unit(prefix + ":" + name, |slice|) ==
            if |prefix| > |slice| then prefix + "-" + name else prefix + ":" + name
    ensures Unit(prefix + ":" + name, |slice|) == prefix + "-" + name <==> |prefix| > |slice|
  {
    OneColon(prefix, name, |slice| + 1);
    var rest := prefix + ":" + name;
    assert rest[|prefix|] == ':' && (prefix + "-" + name)[|prefix|] == '-';
    assert rest[|prefix| := '-'] == prefix + "-" + name;
  }

  /** The example path of the command's own help text keeps its second colon. */
  lemma DocumentedExample()
    ensures Unit("runc:434234", |"system.slice"|) == "runc:434234"
  {
    assert "runc" + ":" + "434234" == "runc:434234";
    ThreeParts("system.slice", "runc", "434234");
  }
}
