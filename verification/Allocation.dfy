// Merging allocation responses (internal/plugin/plugin.go) and the response for one
// partition and for a batch (partition.go, batch_partition.go).
module Allocation {
  import opened Listings
  import opened Naming
  import opened Udev

  datatype DeviceSpec = DeviceSpec(hostPath: string, containerPath: string, permissions: string)

  // A nil map and an empty one are the same message.
  datatype Response = Response(
    devices: seq<DeviceSpec>,
    mounts: seq<string>,
    envs: map<string, string>,
    annotations: map<string, string>)

  const EMPTY := Response([], [], map[], map[])

  function Merge(a: Response, b: Response): Response {
    Response(a.devices + b.devices, a.mounts + b.mounts, a.envs + b.envs, a.annotations + b.annotations)
  }

  // One-shot merge; nil responses are skipped.
  function MergeAll(rs: seq<Option<Response>>): Response {
    if rs == [] then EMPTY
    else
      var rest := MergeAll(rs[..|rs| - 1]);
      match rs[|rs| - 1]
      case None => rest
      case Some(r) => Merge(rest, r)
  }

  lemma MapsAssociate(a: map<string, string>, b: map<string, string>, c: map<string, string>)
    ensures a + b + c == a + (b + c)
  {
  }

  lemma MergeAssociates(a: Response, b: Response, c: Response)
    ensures Merge(Merge(a, b), c) == Merge(a, Merge(b, c))
  {
    MapsAssociate(a.envs, b.envs, c.envs);
    MapsAssociate(a.annotations, b.annotations, c.annotations);
    assert a.devices + b.devices + c.devices == a.devices + (b.devices + c.devices);
    assert a.mounts + b.mounts + c.mounts == a.mounts + (b.mounts + c.mounts);
  }

  lemma MergeIdentity(a: Response)
    ensures Merge(EMPTY, a) == a && Merge(a, EMPTY) == a
  {
    assert map[] + a.envs == a.envs && a.envs + map[] == a.envs;
    assert map[] + a.annotations == a.annotations && a.annotations + map[] == a.annotations;
  }

  lemma {:induction false} MergeInParts(xs: seq<Option<Response>>, ys: seq<Option<Response>>)
    ensures MergeAll(xs + ys) == Merge(MergeAll(xs), MergeAll(ys))
    decreases |ys|
  {
    if ys == [] {
      assert xs + ys == xs;
      MergeIdentity(MergeAll(xs));
    } else {
      var n := |ys| - 1;
      assert (xs + ys)[..|xs + ys| - 1] == xs + ys[..n];
      MergeInParts(xs, ys[..n]);
      if ys[n].Some? {
        MergeAssociates(MergeAll(xs), MergeAll(ys[..n]), ys[n].value);
      }
    }
  }

  // Merging one response at a time is merging them all at once.
  lemma MergeIncrementally(done: seq<Option<Response>>, r: Option<Response>)
    ensures MergeAll([Some(MergeAll(done)), r]) == MergeAll(done + [r])
  {
    var one := [Some(MergeAll(done))];
    MergeIdentity(MergeAll(done));
    assert one[..0] == [];
    assert MergeAll(one) == MergeAll(done);
    assert (one + [r])[..1] == one && one + [r] == [Some(MergeAll(done)), r];
    assert (done + [r])[..|done|] == done;
  }

  // ---- what a merge holds ----

  // The parts stand behind one another and make up the whole.
  ghost predicate Joins<T>(whole: seq<T>, parts: seq<seq<T>>) {
    exists cuts: seq<nat> :: CutsAt(whole, parts, cuts)
  }

  ghost predicate CutsAt<T>(whole: seq<T>, parts: seq<seq<T>>, cuts: seq<nat>) {
    && |cuts| == |parts| + 1 && cuts[0] == 0 && cuts[|parts|] == |whole|
    && forall i | 0 <= i < |parts| :: IsPart(whole, cuts[i], cuts[i + 1], parts[i])
  }

  ghost predicate IsPart<T>(whole: seq<T>, from: nat, to: nat, part: seq<T>) {
    from <= to <= |whole| && whole[from..to] == part
  }

  // The i-th of the maps is the last that has the key.
  ghost predicate LastWith(parts: seq<map<string, string>>, i: int, key: string) {
    0 <= i < |parts| && key in parts[i] && forall j | i < j < |parts| :: key !in parts[j]
  }

  // The keys of all parts, each with the value of the last part that has it.
  ghost predicate Overlays(whole: map<string, string>, parts: seq<map<string, string>>) {
    && (forall key | key in whole :: exists i :: LastWith(parts, i, key))
    && (forall i, key | LastWith(parts, i, key) :: key in whole && whole[key] == parts[i][key])
  }

  // One field of every response; a nil response adds nothing.
  function Parts<T>(rs: seq<Option<Response>>, field: Response -> T): (parts: seq<T>)
    ensures |parts| == |rs|
  {
    seq(|rs|, i requires 0 <= i < |rs| => field(if rs[i].Some? then rs[i].value else EMPTY))
  }

  // Field by field: devices and mounts of all responses in their order, the last value of
  // each variable and annotation.
  ghost predicate Combines(r: Response, rs: seq<Option<Response>>) {
    && Joins(r.devices, Parts(rs, (x: Response) => x.devices))
    && Joins(r.mounts, Parts(rs, (x: Response) => x.mounts))
    && Overlays(r.envs, Parts(rs, (x: Response) => x.envs))
    && Overlays(r.annotations, Parts(rs, (x: Response) => x.annotations))
  }

  lemma JoinsSnoc<T>(whole: seq<T>, parts: seq<seq<T>>, last: seq<T>)
    requires Joins(whole, parts)
    ensures Joins(whole + last, parts + [last])
  {
    var cuts: seq<nat> :| CutsAt(whole, parts, cuts);
    var all, cuts' := parts + [last], cuts + [|whole + last|];
    forall i | 0 <= i < |all|
      ensures IsPart(whole + last, cuts'[i], cuts'[i + 1], all[i])
    {
      if i < |parts| {
        assert IsPart(whole, cuts[i], cuts[i + 1], parts[i]);
        assert (whole + last)[cuts[i]..cuts[i + 1]] == whole[cuts[i]..cuts[i + 1]];
      } else {
        assert cuts'[i] == |whole| && cuts'[i + 1] == |whole + last| && all[i] == last;
        assert (whole + last)[|whole|..|whole + last|] == last;
      }
    }
    assert CutsAt(whole + last, all, cuts');
  }

  lemma OverlaysSnoc(whole: map<string, string>, parts: seq<map<string, string>>, last: map<string, string>)
    requires Overlays(whole, parts)
    ensures Overlays(whole + last, parts + [last])
  {
    var all := parts + [last];
    forall key | key in whole + last
      ensures exists i :: LastWith(all, i, key)
    {
      if key in last {
        assert LastWith(all, |parts|, key);
      } else {
        var i :| LastWith(parts, i, key);
        assert LastWith(all, i, key);
      }
    }
    forall i, key | LastWith(all, i, key)
      ensures key in whole + last && (whole + last)[key] == all[i][key]
    {
      assert all[|parts|] == last;
      if i < |parts| {
        assert forall j | i < j < |parts| :: all[j] == parts[j];
        assert LastWith(parts, i, key);
      }
    }
  }

  lemma PartsSnoc<T>(rs: seq<Option<Response>>, field: Response -> T)
    requires rs != []
    ensures var n := |rs| - 1;
            Parts(rs, field) == Parts(rs[..n], field) + [field(if rs[n].Some? then rs[n].value else EMPTY)]
  {
  }

  lemma {:induction false} DevicesJoin(rs: seq<Option<Response>>)
    ensures Joins(MergeAll(rs).devices, Parts(rs, (x: Response) => x.devices))
  {
    var field := (x: Response) => x.devices;
    if rs == [] {
      assert CutsAt([], Parts(rs, field), [0]);
    } else {
      var n := |rs| - 1;
      DevicesJoin(rs[..n]);
      PartsSnoc(rs, field);
      var before := MergeAll(rs[..n]).devices;
      JoinsSnoc(before, Parts(rs[..n], field), if rs[n].Some? then rs[n].value.devices else []);
      assert before + [] == before;
    }
  }

  lemma {:induction false} MountsJoin(rs: seq<Option<Response>>)
    ensures Joins(MergeAll(rs).mounts, Parts(rs, (x: Response) => x.mounts))
  {
    var field := (x: Response) => x.mounts;
    if rs == [] {
      assert CutsAt([], Parts(rs, field), [0]);
    } else {
      var n := |rs| - 1;
      MountsJoin(rs[..n]);
      PartsSnoc(rs, field);
      var before := MergeAll(rs[..n]).mounts;
      JoinsSnoc(before, Parts(rs[..n], field), if rs[n].Some? then rs[n].value.mounts else []);
      assert before + [] == before;
    }
  }

  lemma {:induction false} EnvsOverlay(rs: seq<Option<Response>>)
    ensures Overlays(MergeAll(rs).envs, Parts(rs, (x: Response) => x.envs))
  {
    if rs != [] {
      var n := |rs| - 1;
      var field := (x: Response) => x.envs;
      EnvsOverlay(rs[..n]);
      PartsSnoc(rs, field);
      var before := MergeAll(rs[..n]).envs;
      OverlaysSnoc(before, Parts(rs[..n], field), if rs[n].Some? then rs[n].value.envs else map[]);
      assert before + map[] == before;
    }
  }

  lemma {:induction false} AnnotationsOverlay(rs: seq<Option<Response>>)
    ensures Overlays(MergeAll(rs).annotations, Parts(rs, (x: Response) => x.annotations))
  {
    if rs != [] {
      var n := |rs| - 1;
      var field := (x: Response) => x.annotations;
      AnnotationsOverlay(rs[..n]);
      PartsSnoc(rs, field);
      var before := MergeAll(rs[..n]).annotations;
      OverlaysSnoc(before, Parts(rs[..n], field), if rs[n].Some? then rs[n].value.annotations else map[]);
      assert before + map[] == before;
    }
  }

  // So much for what a merged response holds.
  lemma MergeCombines(rs: seq<Option<Response>>)
    ensures Combines(MergeAll(rs), rs)
  {
    DevicesJoin(rs);
    MountsJoin(rs);
    EnvsOverlay(rs);
    AnnotationsOverlay(rs);
  }

  // for key, value := range from { into[key] = value }
  method MergeInto(into: map<string, string>, from: map<string, string>) returns (result: map<string, string>)
    ensures result == into + from
  {
    result := into;
    var todo := from.Keys;
    while todo != {}
      invariant todo <= from.Keys
      invariant result == into + (map k | k in from && k !in todo :: from[k])
      decreases todo
    {
      var key :| key in todo;
      result := result[key := from[key]];
      todo := todo - {key};
    }
    assert from == map k | k in from && k !in todo :: from[k];
  }

  // The loop is only entered for a map with entries.
  method MergeNonempty(into: map<string, string>, from: map<string, string>) returns (result: map<string, string>)
    ensures result == into + from
  {
    if |from| > 0 {
      result := MergeInto(into, from);
    } else {
      result := into;
      assert from == map[];
    }
  }

  // One response, field by field.
  method MergeOne(response: Response, r: Response) returns (merged: Response)
    ensures merged == Merge(response, r)
  {
    var envs := MergeNonempty(response.envs, r.envs);
    var annotations := MergeNonempty(response.annotations, r.annotations);
    merged := Response(response.devices + r.devices, response.mounts + r.mounts, envs, annotations);
  }

  method MergeResponses(rs: seq<Option<Response>>) returns (response: Response)
    ensures response == MergeAll(rs)
  {
    response := EMPTY;
    for i := 0 to |rs|
      invariant response == MergeAll(rs[..i])
    {
      assert rs[..i + 1][..i] == rs[..i];
      if rs[i].Some? {
        response := MergeOne(response, rs[i].value);
      }
    }
    assert rs[..|rs|] == rs;
  }

  // ---- plugin.Allocate ----

  datatype AllocateResult = Ok(responses: seq<Response>) | NotFound(id: string) | Internal(id: string)

  ghost predicate Grants<I>(instances: map<string, I>, alloc: I -> Option<Response>, id: string) {
    id in instances && alloc(instances[id]).Some?
  }

  // The response to one container: what the instances of all its ids gave, merged.
  ghost predicate Answers<I>(
      instances: map<string, I>, alloc: I -> Option<Response>, ids: seq<string>, response: Response)
  {
    exists got: seq<Option<Response>> ::
      && response == MergeAll(got) && Combines(response, got)
      && |got| == |ids|
      && forall i | 0 <= i < |ids| :: ids[i] in instances && got[i] == alloc(instances[ids[i]])
  }

  ghost predicate GrantsAll<I>(instances: map<string, I>, alloc: I -> Option<Response>, ids: seq<string>) {
    forall i | 0 <= i < |ids| :: Grants(instances, alloc, ids[i])
  }

  ghost predicate AllGranted<I>(instances: map<string, I>, alloc: I -> Option<Response>, requests: seq<seq<string>>) {
    forall ids | ids in requests :: GrantsAll(instances, alloc, ids)
  }

  // The n-th id is the first that is not granted, and this is its error.
  ghost predicate RefusedFirst<I>(
      instances: map<string, I>, alloc: I -> Option<Response>, ids: seq<string>, n: int, error: AllocateResult)
  {
    && 0 <= n < |ids| && GrantsAll(instances, alloc, ids[..n]) && !Grants(instances, alloc, ids[n])
    && error == if ids[n] in instances then Internal(ids[n]) else NotFound(ids[n])
  }

  ghost predicate Refused<I>(
      instances: map<string, I>, alloc: I -> Option<Response>, ids: seq<string>, error: AllocateResult)
  {
    exists n :: RefusedFirst(instances, alloc, ids, n, error)
  }

  // One container: responses are merged one at a time, up to the first id that is unknown or
  // whose instance fails.
  method AllocateContainer<I>(instances: map<string, I>, alloc: I -> Option<Response>, ids: seq<string>)
    returns (error: Option<AllocateResult>, response: Response)
    ensures error.None? <==> GrantsAll(instances, alloc, ids)
    ensures error.Some? ==> Refused(instances, alloc, ids, error.value)
    ensures error.None? ==> Answers(instances, alloc, ids, response)
  {
    error, response := None, EMPTY;
    ghost var all: seq<Option<Response>> := [];
    for n := 0 to |ids|
      invariant error.None? && |all| == n && response == MergeAll(all)
      invariant forall i | 0 <= i < n :: Grants(instances, alloc, ids[i]) && all[i] == alloc(instances[ids[i]])
    {
      if ids[n] !in instances {
        error := Some(NotFound(ids[n]));
        assert RefusedFirst(instances, alloc, ids, n, error.value);
        return;
      }
      var got := alloc(instances[ids[n]]);
      if got.None? {
        error := Some(Internal(ids[n]));
        assert RefusedFirst(instances, alloc, ids, n, error.value);
        return;
      }
      MergeIncrementally(all, got);
      response := MergeResponses([Some(response), got]);
      all := all + [got];
    }
    MergeCombines(all);
  }

  // One response for each container.
  ghost predicate AllAnswered<I>(
      instances: map<string, I>, alloc: I -> Option<Response>, requests: seq<seq<string>>, responses: seq<Response>)
  {
    |responses| == |requests| && forall c | 0 <= c < |requests| :: Answers(instances, alloc, requests[c], responses[c])
  }

  lemma OneMoreAnswer<I>(
      instances: map<string, I>, alloc: I -> Option<Response>, requests: seq<seq<string>>, responses: seq<Response>,
      ids: seq<string>, response: Response)
    requires AllAnswered(instances, alloc, requests, responses) && Answers(instances, alloc, ids, response)
    ensures AllAnswered(instances, alloc, requests + [ids], responses + [response])
  {
  }

  lemma OneMoreGranted<I>(
      instances: map<string, I>, alloc: I -> Option<Response>, requests: seq<seq<string>>, ids: seq<string>)
    requires AllGranted(instances, alloc, requests) && GrantsAll(instances, alloc, ids)
    ensures AllGranted(instances, alloc, requests + [ids])
  {
  }

  lemma RefusalIsError<I>(
      instances: map<string, I>, alloc: I -> Option<Response>, requests: seq<seq<string>>, c: nat,
      error: AllocateResult)
    requires c < |requests| && Refused(instances, alloc, requests[c], error)
    ensures !error.Ok? && !AllGranted(instances, alloc, requests)
  {
    var n :| RefusedFirst(instances, alloc, requests[c], n, error);
    assert requests[c] in requests;
  }

  // All containers, or the error of the first id that is not granted of the first container
  // that has one.
  method Allocate<I>(instances: map<string, I>, alloc: I -> Option<Response>, requests: seq<seq<string>>)
    returns (result: AllocateResult)
    ensures result.Ok? <==> AllGranted(instances, alloc, requests)
    ensures result.Ok? ==> AllAnswered(instances, alloc, requests, result.responses)
    ensures !result.Ok? ==>
              exists c | 0 <= c < |requests| ::
                AllGranted(instances, alloc, requests[..c]) && Refused(instances, alloc, requests[c], result)
  {
    var responses := [];
    for c := 0 to |requests|
      invariant AllGranted(instances, alloc, requests[..c])
      invariant AllAnswered(instances, alloc, requests[..c], responses)
    {
      var error, response := AllocateContainer(instances, alloc, requests[c]);
      if error.Some? {
        RefusalIsError(instances, alloc, requests, c, error.value);
        return error.value;
      }
      OneMoreAnswer(instances, alloc, requests[..c], responses, requests[c], response);
      OneMoreGranted(instances, alloc, requests[..c], requests[c]);
      PrefixSnoc(requests, c);
      responses := responses + [response];
    }
    assert requests[..|requests|] == requests;
    return Ok(responses);
  }

  // ---- one partition ----

  const SYSATTR_WWID := "wwid"
  const SYSATTR_MODEL := "model"
  const SYSATTR_SERIAL := "serial"
  const PROPERTY_SHORT_SERIAL := "ID_SERIAL_SHORT"

  // The missing key reads as "".
  function Lookup(m: map<string, string>, key: string): string {
    if key in m then m[key] else ""
  }

  // The parts of a path between its slashes.
  function Split(s: string): (parts: seq<string>)
    ensures parts != []
  {
    if s == "" then [""]
    else
      var rest := Split(s[1..]);
      if s[0] == '/' then [""] + rest else [[s[0]] + rest[0]] + rest[1..]
  }

  // path.Clean of a rooted path: empty parts and "." vanish, ".." takes its parent along.
  function Cleaned(parts: seq<string>): seq<string> {
    if parts == [] then []
    else
      var n := |parts| - 1;
      var before := Cleaned(parts[..n]);
      if parts[n] == "" || parts[n] == "." then before
      else if parts[n] == ".." then if before == [] then [] else before[..|before| - 1]
      else before + [parts[n]]
  }

  function Rooted(parts: seq<string>): string {
    if parts == [] then "/"
    else if |parts| == 1 then "/" + parts[0]
    else Rooted(parts[..|parts| - 1]) + "/" + parts[|parts| - 1]
  }

  // path.Join("/dev", "allocated", domain, "part", tag)
  function ContainerPath(domain: string, tag: string): string {
    Rooted(Cleaned(["dev", "allocated"] + Split(domain) + ["part"] + Split(tag)))
  }

  // A part of a path that stands for itself.
  ghost predicate Plain(part: string) {
    part != "" && part != "." && part != ".." && '/' !in part
  }

  lemma {:induction false} SplitParts(s: string)
    ensures forall part | part in Split(s) :: '/' !in part
    ensures '/' !in s ==> Split(s) == [s]
  {
    if s != "" {
      SplitParts(s[1..]);
      var rest := Split(s[1..]);
      assert rest[0] in rest && forall part | part in rest[1..] :: part in rest;
      assert s == [s[0]] + s[1..];
    }
  }

  // Plain parts stay; a plain part is taken away by the ".." behind it, and there is nothing
  // above the root.
  lemma CleanedParts(parts: seq<string>, part: string)
    ensures Plain(part) ==> Cleaned(parts + [part]) == Cleaned(parts) + [part]
    ensures Plain(part) ==> Cleaned(parts + [part, ".."]) == Cleaned(parts)
    ensures Cleaned(parts + [""]) == Cleaned(parts) && Cleaned(parts + ["."]) == Cleaned(parts)
    ensures Cleaned(parts) == [] ==> Cleaned(parts + [".."]) == []
  {
    assert forall x :: (parts + [x])[..|parts|] == parts;
    assert (parts + [part, ".."])[..|parts| + 1] == parts + [part];
  }

  lemma {:induction false} CleanedIsPlain(parts: seq<string>)
    requires forall part | part in parts :: '/' !in part
    ensures forall part | part in Cleaned(parts) :: Plain(part)
  {
    if parts != [] {
      var n := |parts| - 1;
      assert parts[n] in parts && forall part | part in parts[..n] :: part in parts;
      CleanedIsPlain(parts[..n]);
      var before := Cleaned(parts[..n]);
      assert before != [] ==> forall part | part in before[..|before| - 1] :: part in before;
    }
  }

  lemma {:induction false} PlainIsClean(parts: seq<string>)
    requires forall part | part in parts :: Plain(part)
    ensures Cleaned(parts) == parts
  {
    if parts != [] {
      var n := |parts| - 1;
      assert parts == parts[..n] + [parts[n]];
      assert parts[n] in parts && forall part | part in parts[..n] :: part in parts;
      PlainIsClean(parts[..n]);
    }
  }

  lemma PlainParts(domain: string, tag: string)
    requires Plain(domain) && Plain(tag)
    ensures Cleaned(["dev", "allocated"] + Split(domain) + ["part"] + Split(tag)) ==
            ["dev", "allocated", domain, "part", tag]
  {
    SplitParts(domain);
    SplitParts(tag);
    var parts := ["dev", "allocated", domain, "part", tag];
    assert ["dev", "allocated"] + [domain] + ["part"] + [tag] == parts;
    assert Plain("dev") && Plain("allocated") && Plain("part");
    PlainIsClean(parts);
  }

  lemma RootedParts(domain: string, tag: string)
    ensures Rooted(["dev", "allocated", domain, "part", tag]) ==
            "/" + "dev" + ("/" + "allocated") + ("/" + domain) + ("/" + "part") + ("/" + tag)
  {
    RootedSnoc(["dev"], "allocated");
    RootedSnoc(["dev", "allocated"], domain);
    RootedSnoc(["dev", "allocated", domain], "part");
    RootedSnoc(["dev", "allocated", domain, "part"], tag);
    assert ["dev"] + ["allocated"] == ["dev", "allocated"];
    assert ["dev", "allocated"] + [domain] == ["dev", "allocated", domain];
    assert ["dev", "allocated", domain] + ["part"] == ["dev", "allocated", domain, "part"];
    assert ["dev", "allocated", domain, "part"] + [tag] == ["dev", "allocated", domain, "part", tag];
  }

  lemma Spelled(domain: string, tag: string)
    ensures "/" + "dev" + ("/" + "allocated") + ("/" + domain) + ("/" + "part") + ("/" + tag) ==
            "/dev/allocated/" + domain + "/part/" + tag
  {
    assert "/" + "dev" + ("/" + "allocated") == "/dev/allocated" && "/" + "part" == "/part";
    InParts("/dev/allocated", "/", domain);
    assert "/dev/allocated" + "/" == "/dev/allocated/";
    var head := "/dev/allocated/" + domain;
    InParts(head + "/part", "/", tag);
    InParts(head, "/part", "/");
    assert "/part" + "/" == "/part/";
  }

  // A domain and a label that are one plain part each are found in the path as they are.
  lemma PlainContainerPath(domain: string, tag: string)
    requires Plain(domain) && Plain(tag)
    ensures ContainerPath(domain, tag) == "/dev/allocated/" + domain + "/part/" + tag
  {
    PlainParts(domain, tag);
    RootedParts(domain, tag);
    Spelled(domain, tag);
  }

  lemma RootedSnoc(parts: seq<string>, last: string)
    requires parts != []
    ensures Rooted(parts + [last]) == Rooted(parts) + ("/" + last)
  {
    assert (parts + [last])[..|parts|] == parts;
  }

  lemma {:induction false} SplitSnoc(path: string, part: string)
    requires '/' !in part
    ensures Split(path + ("/" + part)) == Split(path) + [part]
  {
    SplitParts(part);
    if path == "" {
      assert path + ("/" + part) == "/" + part && ("/" + part)[1..] == part;
    } else {
      assert (path + ("/" + part))[1..] == path[1..] + ("/" + part);
      SplitSnoc(path[1..], part);
    }
  }

  lemma {:induction false} SplitRooted(parts: seq<string>)
    requires parts != [] && forall part | part in parts :: Plain(part)
    ensures Split(Rooted(parts)) == [""] + parts
  {
    var n := |parts| - 1;
    assert parts == parts[..n] + [parts[n]];
    assert parts[n] in parts && forall part | part in parts[..n] :: part in parts;
    if n == 0 {
      SplitSnoc("", parts[0]);
      assert "" + ("/" + parts[0]) == "/" + parts[0];
    } else {
      SplitRooted(parts[..n]);
      RootedSnoc(parts[..n], parts[n]);
      SplitSnoc(Rooted(parts[..n]), parts[n]);
    }
  }

  lemma {:induction false} LeadingSlash(parts: seq<string>)
    ensures Cleaned([""] + parts) == Cleaned(parts)
  {
    if parts != [] {
      assert ([""] + parts)[..|parts|] == [""] + parts[..|parts| - 1];
      LeadingSlash(parts[..|parts| - 1]);
    }
  }

  // Whatever domain and label are, the container path is a clean absolute one: it is "/" or
  // plain parts behind slashes, and cleaning it again changes nothing.
  lemma ContainerPathIsClean(domain: string, tag: string)
    ensures var path := ContainerPath(domain, tag);
            && Rooted(Cleaned(Split(path))) == path
            && (path == "/" || exists parts :: path == Rooted(parts) && forall part | part in parts :: Plain(part))
  {
    var all := ["dev", "allocated"] + Split(domain) + ["part"] + Split(tag);
    SplitParts(domain);
    SplitParts(tag);
    CleanedIsPlain(all);
    var parts := Cleaned(all);
    if parts == [] {
      assert Split("/") == [""] + Split("/"[1..]);
    } else {
      SplitRooted(parts);
      LeadingSlash(parts);
      PlainIsClean(parts);
    }
  }

  function Serial(dev: Device): string {
    var serial := Lookup(dev.sysattrs, SYSATTR_SERIAL);
    if serial == "" then Lookup(dev.properties, PROPERTY_SHORT_SERIAL) else serial
  }

  // The value of a variable, if the partition has it.
  function VariableValue(dev: Device, domain: string, tag: string, v: Variable): Option<string> {
    match v
    case Path => Some(ContainerPath(domain, tag))
    case DiskId => Some(Lookup(dev.sysattrs, SYSATTR_WWID))
    case DiskModel => Some(Lookup(dev.sysattrs, SYSATTR_MODEL))
    case DiskSerial => if Serial(dev) == "" then None else Some(Serial(dev))
  }

  function PartitionDevice(dev: Device, domain: string, tag: string): DeviceSpec {
    DeviceSpec(dev.devNode, ContainerPath(domain, tag), "rw")
  }

  function PartitionName(domain: string, tag: string, v: Variable): string {
    EnvName(domain, tag, VariableName(v))
  }

  // The variables under given names.
  function NamedEnvs(dev: Device, path: string, names: Variable -> string): map<string, string> {
    var envs := map[names(Path) := path]
                [names(DiskId) := Lookup(dev.sysattrs, SYSATTR_WWID)]
                [names(DiskModel) := Lookup(dev.sysattrs, SYSATTR_MODEL)];
    if Serial(dev) == "" then envs else envs[names(DiskSerial) := Serial(dev)]
  }

  lemma NamedEnvsKeys(dev: Device, path: string, names: Variable -> string, name: string)
    requires name in NamedEnvs(dev, path, names)
    ensures || name == names(Path) || name == names(DiskId) || name == names(DiskModel)
            || (name == names(DiskSerial) && Serial(dev) != "")
  {
  }

  function PartitionNames(domain: string, tag: string): Variable -> string {
    v => PartitionName(domain, tag, v)
  }

  function PartitionEnvs(dev: Device, domain: string, tag: string): map<string, string> {
    NamedEnvs(dev, ContainerPath(domain, tag), PartitionNames(domain, tag))
  }

  function PartitionResponse(dev: Device, domain: string, tag: string): Response {
    Response([PartitionDevice(dev, domain, tag)], [], PartitionEnvs(dev, domain, tag), map[])
  }

  // The spec lets the container read and write the device's own node under its own path.
  ghost predicate Hands(spec: DeviceSpec, dev: Device, domain: string, tag: string) {
    && spec.hostPath == dev.devNode
    && spec.containerPath == ContainerPath(domain, tag)
    && (Plain(domain) && Plain(tag) ==> spec.containerPath == "/dev/allocated/" + domain + "/part/" + tag)
    && spec.permissions == "rw"
  }

  // The four variables by name: the path inside the container, and what identifies the disk. A
  // missing id or model is empty, a serial number is taken from the attribute or else from the
  // property, and is left out if neither has one.
  ghost predicate NamesDisk(envs: map<string, string>, path: string, dev: Device, domain: string, tag: string) {
    var head := SanitizeEnv(domain) + "_PART_" + SanitizeEnv(tag);
    var serial :=
      if "serial" in dev.sysattrs && dev.sysattrs["serial"] != "" then dev.sysattrs["serial"]
      else if "ID_SERIAL_SHORT" in dev.properties then dev.properties["ID_SERIAL_SHORT"] else "";
    && head + "_PATH" in envs && envs[head + "_PATH"] == path
    && head + "_DISK_ID" in envs
    && envs[head + "_DISK_ID"] == (if "wwid" in dev.sysattrs then dev.sysattrs["wwid"] else "")
    && head + "_DISK_MODEL" in envs
    && envs[head + "_DISK_MODEL"] == (if "model" in dev.sysattrs then dev.sysattrs["model"] else "")
    && (head + "_DISK_SERIAL" in envs <==> serial != "")
    && (head + "_DISK_SERIAL" in envs ==> envs[head + "_DISK_SERIAL"] == serial)
  }

  lemma PartitionHands(dev: Device, domain: string, tag: string)
    ensures Hands(PartitionDevice(dev, domain, tag), dev, domain, tag)
  {
    if Plain(domain) && Plain(tag) {
      PlainContainerPath(domain, tag);
    }
  }

  lemma PartitionNamesDisk(dev: Device, domain: string, tag: string)
    ensures NamesDisk(PartitionEnvs(dev, domain, tag), ContainerPath(domain, tag), dev, domain, tag)
  {
    VariableNamed(domain, tag, Path);
    VariableNamed(domain, tag, DiskId);
    VariableNamed(domain, tag, DiskModel);
    VariableNamed(domain, tag, DiskSerial);
    VariableHeld(dev, domain, tag, Path);
    VariableHeld(dev, domain, tag, DiskId);
    VariableHeld(dev, domain, tag, DiskModel);
    if Serial(dev) != "" {
      VariableHeld(dev, domain, tag, DiskSerial);
    } else if PartitionName(domain, tag, DiskSerial) in PartitionEnvs(dev, domain, tag) {
      var v := EntryOf(dev, domain, tag, PartitionName(domain, tag, DiskSerial));
      EnvNamesEqualIff(domain, tag, DiskSerial, tag, v);
    }
  }

  // Written step by step as the code does it; every variable the partition has is there
  // under its own name, and nothing else.
  method AllocatePartitionDevice(dev: Device, domain: string, tag: string) returns (response: Response)
    ensures response == PartitionResponse(dev, domain, tag)
    ensures |response.devices| == 1 && Hands(response.devices[0], dev, domain, tag)
    ensures HoldsVariables(response.envs, dev, domain, tag)
    ensures NamesDisk(response.envs, response.devices[0].containerPath, dev, domain, tag)
    ensures response.mounts == [] && response.annotations == map[]
  {
    var containerPath := ContainerPath(domain, tag);
    var devices := [DeviceSpec(dev.devNode, containerPath, "rw")];
    var envName := PartitionNames(domain, tag);
    var envs := map[];
    envs := envs[envName(Path) := containerPath];
    envs := envs[envName(DiskId) := Lookup(dev.sysattrs, SYSATTR_WWID)];
    envs := envs[envName(DiskModel) := Lookup(dev.sysattrs, SYSATTR_MODEL)];
    var serial := Lookup(dev.sysattrs, SYSATTR_SERIAL);
    if serial == "" {
      serial := Lookup(dev.properties, PROPERTY_SHORT_SERIAL);
    }
    if serial != "" {
      envs := envs[envName(DiskSerial) := serial];
    }
    response := Response(devices, [], envs, map[]);
    PartitionHands(dev, domain, tag);
    PartitionVariables(dev, domain, tag);
    PartitionNamesDisk(dev, domain, tag);
  }

  // Every variable the partition has is in envs with its value, and nothing else is.
  ghost predicate HoldsVariables(envs: map<string, string>, dev: Device, domain: string, tag: string) {
    && (forall v: Variable | VariableValue(dev, domain, tag, v).Some? ::
          PartitionName(domain, tag, v) in envs &&
          envs[PartitionName(domain, tag, v)] == VariableValue(dev, domain, tag, v).value)
    && (forall name | name in envs ::
          exists v: Variable :: VariableValue(dev, domain, tag, v).Some? && name == PartitionName(domain, tag, v))
  }

  lemma NamesDistinct(domain: string, tag: string, v: Variable, w: Variable)
    requires v != w
    ensures PartitionName(domain, tag, v) != PartitionName(domain, tag, w)
  {
    EnvNamesEqualIff(domain, tag, v, tag, w);
  }

  lemma VariableHeld(dev: Device, domain: string, tag: string, v: Variable)
    requires VariableValue(dev, domain, tag, v).Some?
    ensures PartitionName(domain, tag, v) in PartitionEnvs(dev, domain, tag)
    ensures PartitionEnvs(dev, domain, tag)[PartitionName(domain, tag, v)] == VariableValue(dev, domain, tag, v).value
  {
    if v != DiskSerial {
      NamesDistinct(domain, tag, v, DiskSerial);
    }
    if v != DiskModel {
      NamesDistinct(domain, tag, v, DiskModel);
    }
    if v != DiskId {
      NamesDistinct(domain, tag, v, DiskId);
    }
  }

  lemma NothingElseHeld(dev: Device, domain: string, tag: string, name: string) returns (v: Variable)
    requires name in PartitionEnvs(dev, domain, tag)
    ensures VariableValue(dev, domain, tag, v).Some? && name == PartitionName(domain, tag, v)
  {
    var names := PartitionNames(domain, tag);
    NamedEnvsKeys(dev, ContainerPath(domain, tag), names, name);
    v := if name == names(Path) then Path
         else if name == names(DiskId) then DiskId
         else if name == names(DiskModel) then DiskModel
         else DiskSerial;
  }

  lemma PartitionVariables(dev: Device, domain: string, tag: string)
    ensures HoldsVariables(PartitionEnvs(dev, domain, tag), dev, domain, tag)
  {
    forall v: Variable | VariableValue(dev, domain, tag, v).Some?
      ensures PartitionName(domain, tag, v) in PartitionEnvs(dev, domain, tag)
      ensures PartitionEnvs(dev, domain, tag)[PartitionName(domain, tag, v)] == VariableValue(dev, domain, tag, v).value
    {
      VariableHeld(dev, domain, tag, v);
    }
    forall name | name in PartitionEnvs(dev, domain, tag)
      ensures exists v: Variable :: VariableValue(dev, domain, tag, v).Some? && name == PartitionName(domain, tag, v)
    {
      var v := NothingElseHeld(dev, domain, tag, name);
    }
  }

  lemma EntryOf(dev: Device, domain: string, tag: string, name: string) returns (v: Variable)
    requires name in PartitionEnvs(dev, domain, tag)
    ensures name == PartitionName(domain, tag, v) && VariableValue(dev, domain, tag, v).Some?
    ensures PartitionEnvs(dev, domain, tag)[name] == VariableValue(dev, domain, tag, v).value
  {
    v := NothingElseHeld(dev, domain, tag, name);
    VariableHeld(dev, domain, tag, v);
  }

  lemma PathIn(dev: Device, domain: string, tag: string)
    ensures PartitionName(domain, tag, Path) in PartitionEnvs(dev, domain, tag)
    ensures PartitionEnvs(dev, domain, tag)[PartitionName(domain, tag, Path)] == ContainerPath(domain, tag)
  {
    VariableHeld(dev, domain, tag, Path);
  }

  // A variable of one label found among another partition's variables is that partition's
  // variable of the same kind, and the labels sanitise alike.
  lemma SharedName(domain: string, tag: string, v: Variable, dev': Device, tag': string)
    requires PartitionName(domain, tag, v) in PartitionEnvs(dev', domain, tag')
    ensures SanitizeEnv(tag) == SanitizeEnv(tag')
    ensures VariableValue(dev', domain, tag', v).Some? &&
            PartitionEnvs(dev', domain, tag')[PartitionName(domain, tag, v)] ==
              VariableValue(dev', domain, tag', v).value
  {
    var w := EntryOf(dev', domain, tag', PartitionName(domain, tag, v));
    EnvNamesEqualIff(domain, tag, v, tag', w);
  }

  // The variables of two partitions of one domain have a name in common exactly when their
  // labels sanitise alike.
  lemma NamesOverlapIff(dev: Device, tag: string, dev': Device, tag': string, domain: string)
    ensures PartitionEnvs(dev, domain, tag).Keys !! PartitionEnvs(dev', domain, tag').Keys
       <==> SanitizeEnv(tag) != SanitizeEnv(tag')
  {
    if SanitizeEnv(tag) == SanitizeEnv(tag') {
      PathIn(dev, domain, tag);
      PathIn(dev', domain, tag');
      assert PartitionName(domain, tag, Path) == PartitionName(domain, tag', Path);
    } else {
      forall name | name in PartitionEnvs(dev, domain, tag)
        ensures name !in PartitionEnvs(dev', domain, tag')
      {
        var v := EntryOf(dev, domain, tag, name);
        if name in PartitionEnvs(dev', domain, tag') {
          SharedName(domain, tag, v, dev', tag');
        }
      }
    }
  }

  // ---- a batch: one response for all partitions of a pool state ----

  datatype Member = Member(dev: Device, tag: string)

  function MemberEnvs(domain: string, m: Member): map<string, string> {
    PartitionEnvs(m.dev, domain, m.tag)
  }

  function MemberResponses(domain: string, members: seq<Member>): seq<Option<Response>> {
    seq(|members|, i requires 0 <= i < |members| => Some(PartitionResponse(members[i].dev, domain, members[i].tag)))
  }

  function BatchResponse(domain: string, members: seq<Member>): Response {
    MergeAll(MemberResponses(domain, members))
  }

  lemma BatchSnoc(domain: string, members: seq<Member>, last: Member)
    ensures var rest := BatchResponse(domain, members);
            && BatchResponse(domain, members + [last]).devices ==
              rest.devices + [PartitionDevice(last.dev, domain, last.tag)]
            && BatchResponse(domain, members + [last]).envs == rest.envs + MemberEnvs(domain, last)
  {
    var all := MemberResponses(domain, members + [last]);
    assert all[..|members|] == MemberResponses(domain, members);
  }

  // One device per member, its own, in the order of the snapshot.
  lemma {:induction false} BatchDevices(domain: string, members: seq<Member>)
    ensures var devices := BatchResponse(domain, members).devices;
            && |devices| == |members|
            && forall i | 0 <= i < |members| :: Hands(devices[i], members[i].dev, domain, members[i].tag)
  {
    if members != [] {
      var n := |members| - 1;
      assert members == members[..n] + [members[n]];
      BatchSnoc(domain, members[..n], members[n]);
      BatchDevices(domain, members[..n]);
      PartitionHands(members[n].dev, domain, members[n].tag);
    }
  }

  ghost predicate DistinctLabels(members: seq<Member>) {
    forall i, j | 0 <= i < j < |members| :: SanitizeEnv(members[i].tag) != SanitizeEnv(members[j].tag)
  }

  // a's entries are all in b.
  ghost predicate Within(a: map<string, string>, b: map<string, string>) {
    forall k | k in a :: k in b && b[k] == a[k]
  }

  function NameOf(domain: string, m: Member, v: Variable): string {
    PartitionName(domain, m.tag, v)
  }

  function ValueOf(domain: string, m: Member, v: Variable): Option<string> {
    VariableValue(m.dev, domain, m.tag, v)
  }

  // The variables of a response hold a member's value of a variable, if it has one.
  ghost predicate Holds(domain: string, m: Member, v: Variable, envs: map<string, string>) {
    ValueOf(domain, m, v).Some? ==>
      NameOf(domain, m, v) in envs && envs[NameOf(domain, m, v)] == ValueOf(domain, m, v).value
  }

  ghost predicate Survives(domain: string, members: seq<Member>, i: nat, v: Variable)
    requires i < |members|
  {
    Holds(domain, members[i], v, BatchResponse(domain, members).envs)
  }

  // Members whose labels sanitise alike and who both have the variable have one value of it.
  ghost predicate OneValue(domain: string, members: seq<Member>, v: Variable) {
    forall i, j | 0 <= i < |members| && 0 <= j < |members| ::
      SanitizeEnv(members[i].tag) == SanitizeEnv(members[j].tag) &&
      ValueOf(domain, members[i], v).Some? && ValueOf(domain, members[j], v).Some? ==>
        ValueOf(domain, members[i], v) == ValueOf(domain, members[j], v)
  }

  // A variable's name found among a member's variables is that variable of the member.
  lemma VariableEntry(domain: string, tag: string, v: Variable, m: Member)
    ensures PartitionName(domain, tag, v) in MemberEnvs(domain, m)
       <==> SanitizeEnv(tag) == SanitizeEnv(m.tag) && ValueOf(domain, m, v).Some?
    ensures PartitionName(domain, tag, v) in MemberEnvs(domain, m) ==>
              MemberEnvs(domain, m)[PartitionName(domain, tag, v)] == ValueOf(domain, m, v).value
  {
    if PartitionName(domain, tag, v) in MemberEnvs(domain, m) {
      SharedName(domain, tag, v, m.dev, m.tag);
    } else if ValueOf(domain, m, v).Some? {
      VariableHeld(m.dev, domain, m.tag, v);
      EnvNamesEqualIff(domain, tag, v, m.tag, v);
    }
  }

  // Under the name of a member's variable is the value that some member whose label
  // sanitises alike has of it.
  lemma {:induction false} LastValueWins(domain: string, members: seq<Member>, i: nat, v: Variable) returns (j: nat)
    requires i < |members| && ValueOf(domain, members[i], v).Some?
    ensures NameOf(domain, members[i], v) in BatchResponse(domain, members).envs
    ensures j < |members| && SanitizeEnv(members[j].tag) == SanitizeEnv(members[i].tag)
    ensures ValueOf(domain, members[j], v) == Some(BatchResponse(domain, members).envs[NameOf(domain, members[i], v)])
    decreases |members|
  {
    var n := |members| - 1;
    assert members == members[..n] + [members[n]];
    BatchSnoc(domain, members[..n], members[n]);
    VariableEntry(domain, members[i].tag, v, members[n]);
    if NameOf(domain, members[i], v) in MemberEnvs(domain, members[n]) {
      j := n;
    } else {
      j := LastValueWins(domain, members[..n], i, v);
    }
  }

  // Every member's value of a variable survives exactly when members whose labels sanitise
  // alike agree on it.
  lemma SurvivesIff(domain: string, members: seq<Member>, v: Variable)
    ensures (forall i | 0 <= i < |members| :: Survives(domain, members, i, v)) <==> OneValue(domain, members, v)
  {
    if forall i | 0 <= i < |members| :: Survives(domain, members, i, v) {
      forall i, j | 0 <= i < |members| && 0 <= j < |members| &&
        SanitizeEnv(members[i].tag) == SanitizeEnv(members[j].tag) &&
        ValueOf(domain, members[i], v).Some? && ValueOf(domain, members[j], v).Some?
        ensures ValueOf(domain, members[i], v) == ValueOf(domain, members[j], v)
      {
        assert Survives(domain, members, i, v) && Survives(domain, members, j, v);
        EnvNamesEqualIff(domain, members[i].tag, v, members[j].tag, v);
      }
    }
    if OneValue(domain, members, v) {
      forall i | 0 <= i < |members|
        ensures Survives(domain, members, i, v)
      {
        if ValueOf(domain, members[i], v).Some? {
          var j := LastValueWins(domain, members, i, v);
        }
      }
    }
  }

  lemma WithinHolds(domain: string, m: Member, envs: map<string, string>, v: Variable)
    requires Within(MemberEnvs(domain, m), envs)
    ensures Holds(domain, m, v, envs)
  {
    if ValueOf(domain, m, v).Some? {
      VariableHeld(m.dev, domain, m.tag, v);
      assert NameOf(domain, m, v) in MemberEnvs(domain, m);
    }
  }

  lemma HoldsWithin(domain: string, m: Member, envs: map<string, string>)
    requires forall v: Variable :: Holds(domain, m, v, envs)
    ensures Within(MemberEnvs(domain, m), envs)
  {
    forall name | name in MemberEnvs(domain, m)
      ensures name in envs && envs[name] == MemberEnvs(domain, m)[name]
    {
      var v := EntryOf(m.dev, domain, m.tag, name);
      assert Holds(domain, m, v, envs);
    }
  }

  // The response of a batch holds all variables of all its members.
  ghost predicate AllKept(domain: string, members: seq<Member>) {
    forall i | 0 <= i < |members| :: Within(MemberEnvs(domain, members[i]), BatchResponse(domain, members).envs)
  }

  lemma KeptHaveOneValue(domain: string, members: seq<Member>, v: Variable)
    requires AllKept(domain, members)
    ensures OneValue(domain, members, v)
  {
    forall i | 0 <= i < |members|
      ensures Survives(domain, members, i, v)
    {
      WithinHolds(domain, members[i], BatchResponse(domain, members).envs, v);
    }
    SurvivesIff(domain, members, v);
  }

  lemma OneValueSurvives(domain: string, members: seq<Member>, i: nat, v: Variable)
    requires i < |members| && OneValue(domain, members, v)
    ensures Survives(domain, members, i, v)
  {
    SurvivesIff(domain, members, v);
  }

  lemma OneValuesKept(domain: string, members: seq<Member>, i: nat)
    requires i < |members| && forall v: Variable :: OneValue(domain, members, v)
    ensures Within(MemberEnvs(domain, members[i]), BatchResponse(domain, members).envs)
  {
    forall v: Variable
      ensures Holds(domain, members[i], v, BatchResponse(domain, members).envs)
    {
      OneValueSurvives(domain, members, i, v);
    }
    HoldsWithin(domain, members[i], BatchResponse(domain, members).envs);
  }

  // Nothing is overwritten: the response of a batch holds every variable of every member with
  // its value if and only if members whose labels sanitise alike agree on each variable that
  // both of them have.
  lemma VariablesSurviveIff(domain: string, members: seq<Member>)
    ensures AllKept(domain, members) <==> forall v: Variable :: OneValue(domain, members, v)
  {
    if AllKept(domain, members) {
      forall v: Variable
        ensures OneValue(domain, members, v)
      {
        KeptHaveOneValue(domain, members, v);
      }
    }
    if forall v: Variable :: OneValue(domain, members, v) {
      forall i | 0 <= i < |members|
        ensures Within(MemberEnvs(domain, members[i]), BatchResponse(domain, members).envs)
      {
        OneValuesKept(domain, members, i);
      }
    }
  }

  // So, if no two labels sanitise alike, no partition's variables overwrite another's.
  lemma BatchKeepsEveryVariable(domain: string, members: seq<Member>)
    requires DistinctLabels(members)
    ensures AllKept(domain, members)
  {
    forall v: Variable
      ensures OneValue(domain, members, v)
    {
      DistinctHaveOneValue(domain, members, v);
    }
    VariablesSurviveIff(domain, members);
  }

  lemma DistinctHaveOneValue(domain: string, members: seq<Member>, v: Variable)
    requires DistinctLabels(members)
    ensures OneValue(domain, members, v)
  {
    forall i, j | 0 <= i < |members| && 0 <= j < |members| &&
      SanitizeEnv(members[i].tag) == SanitizeEnv(members[j].tag)
      ensures i == j
    {
    }
  }

  ghost predicate PathSurvives(domain: string, members: seq<Member>, i: nat)
    requires i < |members|
  {
    var envs := BatchResponse(domain, members).envs;
    && NameOf(domain, members[i], Path) in envs
    && envs[NameOf(domain, members[i], Path)] == ContainerPath(domain, members[i].tag)
  }

  // Labels that sanitise alike name the same container path.
  ghost predicate PathsApart(domain: string, members: seq<Member>) {
    forall i, j | 0 <= i < |members| && 0 <= j < |members| ::
      SanitizeEnv(members[i].tag) == SanitizeEnv(members[j].tag) ==>
        ContainerPath(domain, members[i].tag) == ContainerPath(domain, members[j].tag)
  }

  // Of the path, which every member has: each names its own container path exactly when
  // labels with different container paths never sanitise alike.
  lemma PathsSurviveIff(domain: string, members: seq<Member>)
    ensures (forall i | 0 <= i < |members| :: PathSurvives(domain, members, i)) <==> PathsApart(domain, members)
  {
    SurvivesIff(domain, members, Path);
    assert forall i | 0 <= i < |members| :: PathSurvives(domain, members, i) <==> Survives(domain, members, i, Path);
    PathsApartIsOneValue(domain, members);
  }

  lemma PathsApartIsOneValue(domain: string, members: seq<Member>)
    ensures PathsApart(domain, members) <==> OneValue(domain, members, Path)
  {
    if OneValue(domain, members, Path) {
      forall i, j | 0 <= i < |members| && 0 <= j < |members| &&
        SanitizeEnv(members[i].tag) == SanitizeEnv(members[j].tag)
        ensures ContainerPath(domain, members[i].tag) == ContainerPath(domain, members[j].tag)
      {
        assert ValueOf(domain, members[i], Path) == ValueOf(domain, members[j], Path);
      }
    }
  }
}
