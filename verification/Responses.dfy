/** What the callers of `send_messages_await_response_complex` get, for the predicates they pass. */
module Responses {
  import opened Wrappers
  import opened MessageWaits

  /** A predicate that neither reads nor writes its closure. */
  function Pure<C>(p: Msg -> bool): Predicate<C> {
    (c: C, m: Msg) => (c, p(m))
  }

  function PurePair<C>(append: Msg -> bool, stop: Msg -> bool): Predicates<C> {
    Predicates(Some(Pure(append)), Some(Pure(stop)))
  }

  function Select(p: Msg -> bool, ms: seq<Msg>): seq<Msg> {
    if ms == [] then []
    else Select(p, ms[..|ms| - 1]) + (if p(ms[|ms| - 1]) then [ms[|ms| - 1]] else [])
  }

  ghost predicate FirstStop(p: Msg -> bool, ms: seq<Msg>, k: nat) {
    k < |ms| && p(ms[k]) && forall j | 0 <= j < k :: !p(ms[j])
  }

  /** With pure predicates: the selected messages up to and including the first stop. */
  lemma {:induction false} PureCollect<C>(append: Msg -> bool, stop: Msg -> bool, start: C, ms: seq<Msg>)
    ensures var a := Collect(PurePair(append, stop), start, ms);
            && (!a.stopped ==> (forall m | m in ms :: !stop(m)) && a.responses == Select(append, ms))
            && (a.stopped ==> exists k: nat :: FirstStop(stop, ms, k) && a.responses == Select(append, ms[..k + 1]))
  {
    if ms != [] {
      var init := ms[..|ms| - 1];
      PureCollect(append, stop, start, init);
      var before := Collect(PurePair(append, stop), start, init);
      if before.stopped {
        var k: nat :| FirstStop(stop, init, k) && before.responses == Select(append, init[..k + 1]);
        assert ms[..k + 1] == init[..k + 1];
        assert FirstStop(stop, ms, k);
      } else {
        assert ms[..|init| + 1] == ms;
        assert stop(ms[|init|]) ==> FirstStop(stop, ms, |init|);
      }
    }
  }

  lemma {:induction false} NothingSelected(p: Msg -> bool, ms: seq<Msg>)
    requires forall j | 0 <= j < |ms| :: !p(ms[j])
    ensures Select(p, ms) == []
  {
    if ms != [] {
      NothingSelected(p, ms[..|ms| - 1]);
    }
  }

  /** The same pure predicate twice: exactly one response, the first message that satisfies it. */
  lemma OneSelectedResponse<C>(p: Msg -> bool, start: C, ms: seq<Msg>)
    requires Collect(PurePair(p, p), start, ms).stopped
    ensures exists k: nat :: FirstStop(p, ms, k) && Collect(PurePair(p, p), start, ms).responses == [ms[k]]
  {
    PureCollect(p, p, start, ms);
    var a := Collect(PurePair(p, p), start, ms);
    var k: nat :| FirstStop(p, ms, k) && a.responses == Select(p, ms[..k + 1]);
    assert ms[..k + 1][..k] == ms[..k];
    NothingSelected(p, ms[..k]);
  }

  /** No predicates, as in `send_message_await_response`: exactly the first message. */
  lemma {:induction false} OneResponse<C>(start: C, ms: seq<Msg>)
    ensures var a := Collect(Predicates(None, None), start, ms);
            (a.stopped <==> ms != []) && a.responses == ms[..if ms == [] then 0 else 1]
  {
    if ms != [] {
      OneResponse(start, ms[..|ms| - 1]);
    }
  }

  /** `[response] = await send_messages_await_response_complex(...)` never fails to unpack. */
  lemma SingleResponseUnpacks<C(!new)>(s: World<C>, id: nat)
    requires Reachable(s) && id in s.waits && s.waits[id].outcome == Done
    requires s.waits[id].predicates == Predicates(None, None)
    ensures |s.waits[id].responses| == 1 && s.waits[id].responses[0].kind in s.waits[id].kinds
  {
    WaitCollectsItsOwn(s, id);
    var w := s.waits[id];
    var ms := OfKinds(s.log[w.since..], w.kinds);
    OneResponse(w.start, ms);
    KindsOnly(s.log[w.since..], w.kinds);
  }

  lemma {:induction false} KindsOnly(ms: seq<Msg>, kinds: set<nat>)
    ensures forall m | m in OfKinds(ms, kinds) :: m.kind in kinds
  {
    if ms != [] {
      KindsOnly(ms[..|ms| - 1], kinds);
    }
  }

  // `device_info_and_list_entities`

  const DEVICE_INFO_RESPONSE := 10
  const LIST_ENTITIES_DONE_RESPONSE := 19

  /** The closure variables `has_device_info` and `has_entities_done`. */
  datatype Seen = Seen(deviceInfo: bool, entitiesDone: bool)

  /** Where a request's closure keeps these two variables. */
  datatype Variables<!C> = Variables(read: C -> Seen, write: (C, Seen) -> C)

  ghost predicate Independent<C(!new)>(v: Variables<C>) {
    forall c, seen :: v.read(v.write(c, seen)) == seen
  }

  function Note(seen: Seen, m: Msg): Seen {
    Seen(seen.deviceInfo || m.kind == DEVICE_INFO_RESPONSE, seen.entitiesDone || m.kind == LIST_ENTITIES_DONE_RESPONSE)
  }

  /** `is_response` notes what it has seen and keeps everything; `do_stop` waits for both. */
  function Combined<C>(v: Variables<C>): Predicates<C> {
    Predicates(
      Some((c: C, m: Msg) => (v.write(c, Note(v.read(c), m)), true)),
      Some((c: C, m: Msg) => (c, v.read(c).deviceInfo && v.read(c).entitiesDone)))
  }

  ghost predicate Contains(ms: seq<Msg>, kind: nat) {
    exists m :: m in ms && m.kind == kind
  }

  lemma ContainsExtends(ms: seq<Msg>, m: Msg, kind: nat)
    ensures Contains(ms + [m], kind) <==> Contains(ms, kind) || m.kind == kind
  {
    assert m in ms + [m];
    if Contains(ms, kind) {
      var n :| n in ms && n.kind == kind;
      assert n in ms + [m];
    }
  }

  lemma {:induction false} CombinedCollect<C(!new)>(v: Variables<C>, start: C, ms: seq<Msg>)
    requires Independent(v) && v.read(start) == Seen(false, false)
    ensures var a := Collect(Combined(v), start, ms);
            && (a.stopped <==> Contains(ms, DEVICE_INFO_RESPONSE) && Contains(ms, LIST_ENTITIES_DONE_RESPONSE))
            && a.responses <= ms
            && (v.read(a.cells).deviceInfo <==> Contains(a.responses, DEVICE_INFO_RESPONSE))
            && (v.read(a.cells).entitiesDone <==> Contains(a.responses, LIST_ENTITIES_DONE_RESPONSE))
            && (!a.stopped ==> a.responses == ms)
            && (a.stopped <==> v.read(a.cells) == Seen(true, true))
    decreases |ms|
  {
    if ms == [] {
      assert Collect(Combined(v), start, ms).responses == [];
    } else {
      var init := ms[..|ms| - 1];
      var m := ms[|ms| - 1];
      hide Combined, Collect, Contains;
      CombinedCollect(v, start, init);
      assert ms == init + [m];
      ContainsExtends(init, m, DEVICE_INFO_RESPONSE);
      ContainsExtends(init, m, LIST_ENTITIES_DONE_RESPONSE);
      CombinedStep(v, start, init, m);
    }
  }

  lemma CombinedStep<C(!new)>(v: Variables<C>, start: C, init: seq<Msg>, m: Msg)
    requires Independent(v)
    ensures var before := Collect(Combined(v), start, init);
            var seen := Note(v.read(before.cells), m);
            Collect(Combined(v), start, init + [m]) ==
            if before.stopped then before
            else Answer(before.responses + [m], seen == Seen(true, true), v.write(before.cells, seen))
  {
    assert (init + [m])[..|init|] == init;
  }

  /** Whatever the order of arrival, the combined call returns a DeviceInfoResponse and a Done. */
  lemma CombinedCallHasDeviceInfo<C(!new)>(s: World<C>, id: nat, v: Variables<C>)
    requires Reachable(s) && id in s.waits && s.waits[id].outcome == Done
    requires Independent(v) && v.read(s.waits[id].start) == Seen(false, false)
    requires s.waits[id].predicates == Combined(v)
    ensures Contains(s.waits[id].responses, 10) // a DeviceInfoResponse
    ensures Contains(s.waits[id].responses, 19) // a ListEntitiesDoneResponse
  {
    WaitCollectsItsOwn(s, id);
    var w := s.waits[id];
    CombinedCollect(v, w.start, OfKinds(s.log[w.since..], w.kinds));
  }

  /** `list_entities_services` gets everything before the first Done. */
  lemma ListEntitiesCollect<C>(start: C, ms: seq<Msg>)
    ensures var keep := (m: Msg) => m.kind != LIST_ENTITIES_DONE_RESPONSE;
            var done := (m: Msg) => m.kind == LIST_ENTITIES_DONE_RESPONSE;
            var a := Collect(PurePair(keep, done), start, ms);
            a.stopped ==> exists k: nat :: FirstStop(done, ms, k) && a.responses == ms[..k]
  {
    var keep := (m: Msg) => m.kind != LIST_ENTITIES_DONE_RESPONSE;
    var done := (m: Msg) => m.kind == LIST_ENTITIES_DONE_RESPONSE;
    PureCollect(keep, done, start, ms);
    var a := Collect(PurePair(keep, done), start, ms);
    if a.stopped {
      var k: nat :| FirstStop(done, ms, k) && a.responses == Select(keep, ms[..k + 1]);
      assert ms[..k + 1][..k] == ms[..k];
      EverythingSelected(keep, ms[..k]);
    }
  }

  lemma {:induction false} EverythingSelected(p: Msg -> bool, ms: seq<Msg>)
    requires forall j | 0 <= j < |ms| :: p(ms[j])
    ensures Select(p, ms) == ms
  {
    if ms != [] {
      EverythingSelected(p, ms[..|ms| - 1]);
    }
  }
}
