/** Textual names of Kubernetes resources: `version/resource` or `group/version/resource`. */
module ResourceNames {
  import opened Options
  import opened Text

  datatype GroupVersionResource = GroupVersionResource(group: string, version: string, resource: string)

  function GvrToString(gvr: GroupVersionResource): string {
    if gvr.group == "" then gvr.version + "/" + gvr.resource
    else gvr.group + "/" + gvr.version + "/" + gvr.resource
  }

  function StrToGVR(arg: string): Option<GroupVersionResource> {
    var parts := Split(arg, '/');
    if |parts| == 2 then Some(GroupVersionResource("", parts[0], parts[1]))
    else if |parts| == 3 then Some(GroupVersionResource(parts[0], parts[1], parts[2]))
    else None
  }

  lemma SplitTwo(a: string, b: string)
    requires '/' !in a && '/' !in b
    ensures Split(a + "/" + b, '/') == [a, b]
  {
    var parts := [a, b];
    assert parts[1..] == [b];
    assert Join(parts, '/') == a + "/" + b;
    SplitJoin(parts, '/');
  }

  /** Which part of a name is what. */
  lemma PartsOfName(a: string, b: string, c: string)
    requires '/' !in a && '/' !in b && '/' !in c
    ensures StrToGVR(a + "/" + b) == Some(GroupVersionResource("", a, b))
    ensures StrToGVR(a + "/" + b + "/" + c) == Some(GroupVersionResource(a, b, c))
  {
    SplitTwo(a, b);
    var parts := [a, b, c];
    assert parts[1..] == [b, c] && [b, c][1..] == [c];
    assert Join(parts[1..], '/') == b + "/" + c;
    assert a + "/" + b + "/" + c == a + "/" + (b + "/" + c);
    assert Join(parts, '/') == a + "/" + b + "/" + c;
    SplitJoin(parts, '/');
  }

  /** Names with one or two slashes can be read, others cannot. */
  lemma ReadableIff(arg: string)
    ensures StrToGVR(arg).Some? <==> 1 <= multiset(arg)['/'] <= 2
  {
    SplitLength(arg, '/');
  }

  predicate SlashFree(gvr: GroupVersionResource) {
    '/' !in gvr.group && '/' !in gvr.version && '/' !in gvr.resource
  }

  /** Reading a printed name gives back the resource exactly when none of its components contains a slash. */
  lemma GvrRoundTrip(gvr: GroupVersionResource)
    ensures StrToGVR(GvrToString(gvr)) == Some(gvr) <==> SlashFree(gvr)
  {
    var s := GvrToString(gvr);
    var parts := if gvr.group == "" then [gvr.version, gvr.resource] else [gvr.group, gvr.version, gvr.resource];
    if SlashFree(gvr) {
      var tail := [gvr.version, gvr.resource];
      assert tail[1..] == [gvr.resource];
      assert Join(tail, '/') == gvr.version + ['/'] + gvr.resource;
      if gvr.group != "" {
        assert parts[1..] == tail;
      }
      assert s == Join(parts, '/');
      SplitJoin(parts, '/');
    } else {
      var read := Split(s, '/');
      assert forall i | 0 <= i < |read| :: read[i] in read;
    }
  }
}
