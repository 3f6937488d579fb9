/** The audio worklet that hosts the wasm build of the engine
    (js/worklet.js). It receives messages from the page, queues samples
    until the wasm instance exists, forwards triggers and pushes the five
    master parameters into the engine once per block when they change.

    The wasm instance itself is outside this model: the worklet only sees
    the values its exports return. Here `load` numbers buffers in the order
    they arrive and `prepare` numbers instances in the order they are
    prepared, which is how the engine's `load_sample` and
    `prepare_instance` behave; every call into the exports is recorded, in
    order, so that what the worklet asks of the engine can be stated. */
module Worklet {
  import opened Common
  import Vocabulary

  // ---------------------------------------------------------------------
  // Master parameters
  // ---------------------------------------------------------------------

  /** The values of the five master parameters, in declaration order: the
      first entry of each parameter array `process` receives. */
  datatype Master = Master(roomsize: real, dampening: real, delayTime: real,
                           delayFeedback: real, delayCutoff: real)

  /** The parameter descriptors: names and default values. */
  const DescriptorNames: seq<string> :=
    ["reverb_roomsize", "reverb_dampening", "delay_time", "delay_feedback", "delay_cutoff"]
  const DescriptorDefaults: seq<real> := [0.65, 0.43, 0.256, 0.5, 3000.0]

  /** The code each descriptor is pushed under by `set_master_parameter`. */
  const MasterCodes: seq<nat> := [25, 23, 5, 3, 2]

  /** The engine parameter each descriptor stands for. */
  const MasterParameters: seq<Vocabulary.SynthParameter> := [
    Vocabulary.ReverbRoomsize, Vocabulary.ReverbDampening, Vocabulary.DelayTime,
    Vocabulary.DelayFeedback, Vocabulary.DelayDampeningFrequency
  ]

  /** The `i`-th master value. */
  function Field(m: Master, i: nat): real
    requires i < 5
  {
    if i == 0 then m.roomsize
    else if i == 1 then m.dampening
    else if i == 2 then m.delayTime
    else if i == 3 then m.delayFeedback
    else m.delayCutoff
  }

  /** The values the constructor records as last applied: the descriptor
      defaults, field by field. */
  function InitialLast(): (m: Master)
    ensures forall i :: 0 <= i < 5 ==> Field(m, i) == DescriptorDefaults[i]
  {
    Master(0.65, 0.43, 0.256, 0.5, 3000.0)
  }

  /** The codes the worklet sends are the engine's codes for the effects
      its descriptors name: room size and dampening of the reverb, time,
      feedback and dampening frequency of the delay. */
  lemma MasterCodesNameParameters()
    ensures forall i :: 0 <= i < 5 ==>
      Vocabulary.ParameterFromCode(MasterCodes[i]) == Some(MasterParameters[i])
  {
    Vocabulary.MasterParameterCodes();
  }

  // ---------------------------------------------------------------------
  // The wasm side
  // ---------------------------------------------------------------------

  /** A call into the exports of the wasm instance. `None` stands for the
      `undefined` a missing key of a JavaScript object yields. */
  datatype Call =
    | Grow(pages: nat)
    | Alloc(size: nat)
    | Load(buffer: seq<real>)
    | Prepare(source: Option<int>, timestamp: real, sampleBuffer: Option<nat>)
    | SetInstanceParameter(instance: nat, parameter: Option<int>, value: real)
    | TriggerInstance(instance: nat)
    | SetMasterParameter(code: nat, value: real)
    | Render(size: nat, time: real)

  /** What the worklet sees of a wasm instance: the buffers `load` has
      received, numbered in arrival order, how many instances `prepare` has
      handed out, and every call made into the exports. */
  datatype Wasm = Wasm(buffers: seq<seq<real>>, instances: nat, calls: seq<Call>)

  /** The output buffers hold one block of frames each. */
  const OutSize: nat := 128

  /** Pages the memory grows by once the instance exists. */
  const GrowPages: nat := 250

  // ---------------------------------------------------------------------
  // The processor
  // ---------------------------------------------------------------------

  /** The key a page gives a sample (`sample_id`). The worklet only stores
      it in `_sampleMapping` and looks it up, so only its equality matters. */
  type SampleId = string

  /** A sample that arrived before the wasm instance existed. */
  datatype Pending = Pending(samples: seq<real>, id: SampleId)

  /** The processor's fields: the wasm instance once it exists, the queued
      samples, the sample id to buffer number mapping, the source-type and
      source-parameter code tables sent by the page (absent until their
      messages arrive) and the master values last pushed. */
  datatype Processor = Processor(
    wasm: Option<Wasm>,
    pending: seq<Pending>,
    mapping: map<SampleId, nat>,
    sourceTypes: Option<map<string, int>>,
    sourceParameters: Option<map<string, int>>,
    last: Master)

  /** The constructor. */
  function New(): (p: Processor)
    ensures p.wasm.None? && p.pending == [] && p.mapping == map[]
    ensures p.sourceTypes.None? && p.sourceParameters.None?
    ensures forall i :: 0 <= i < 5 ==> Field(p.last, i) == DescriptorDefaults[i]
  {
    Processor(None, [], map[], None, None, InitialLast())
  }

  /** The layout `loadSample` gives a sample in wasm memory: `n + 3` slots,
      the data from slot 1, one zero slot before it and two after, so that
      interpolation around any frame stays inside the buffer. */
  function Padded(samples: seq<real>): (b: seq<real>)
    ensures |b| == |samples| + 3
    ensures b[0] == 0.0 && b[|samples| + 1] == 0.0 && b[|samples| + 2] == 0.0
    ensures b[1..|samples| + 1] == samples
  {
    [0.0] + samples + [0.0, 0.0]
  }

  /** `this.loadSample`: allocates the padded buffer, hands it to `load`
      and maps the id to the buffer number `load` returns. */
  function LoadSample(p: Processor, samples: seq<real>, id: SampleId): (r: Processor)
    requires p.wasm.Some?
    ensures r.wasm.Some? && r.wasm.value.instances == p.wasm.value.instances
    ensures r.wasm.value.buffers == p.wasm.value.buffers + [Padded(samples)]
    ensures r.wasm.value.calls == p.wasm.value.calls + [Alloc(|samples| + 3), Load(Padded(samples))]
    ensures r.mapping == p.mapping[id := |p.wasm.value.buffers|]
    ensures r.(wasm := p.wasm, mapping := p.mapping) == p
  {
    var w := p.wasm.value;
    var bufNum := |w.buffers|;
    var w' := w.(buffers := w.buffers + [Padded(samples)],
                 calls := w.calls + [Alloc(|samples| + 3), Load(Padded(samples))]);
    p.(wasm := Some(w'), mapping := p.mapping[id := bufNum])
  }

  /** The id names a loaded buffer that holds exactly these samples,
      padded. */
  ghost predicate Resolves(p: Processor, id: SampleId, samples: seq<real>) {
    && p.wasm.Some?
    && id in p.mapping
    && p.mapping[id] < |p.wasm.value.buffers|
    && p.wasm.value.buffers[p.mapping[id]] == Padded(samples)
  }

  /** After `loadSample` the id resolves to its samples, and every other id
      resolves as before. */
  lemma LoadSampleResolves(p: Processor, samples: seq<real>, id: SampleId, other: SampleId, s: seq<real>)
    requires p.wasm.Some?
    ensures Resolves(LoadSample(p, samples, id), id, samples)
    ensures other != id && Resolves(p, other, s) ==> Resolves(LoadSample(p, samples, id), other, s)
  {
    var r := LoadSample(p, samples, id);
    assert r.wasm.value.buffers[|p.wasm.value.buffers|] == Padded(samples);
    if other != id && Resolves(p, other, s) {
      assert r.wasm.value.buffers[p.mapping[other]] == p.wasm.value.buffers[p.mapping[other]];
    }
  }

  /** The samples queued last under `id`, if any. */
  function LastFor(ps: seq<Pending>, id: SampleId): Option<seq<real>>
    decreases |ps|
  {
    if |ps| == 0 then None
    else if ps[|ps| - 1].id == id then Some(ps[|ps| - 1].samples)
    else LastFor(ps[..|ps| - 1], id)
  }

  /** The queued samples loaded one after another, in arrival order. */
  function LoadAll(p: Processor, ps: seq<Pending>): (r: Processor)
    requires p.wasm.Some?
    ensures r.wasm.Some?
    ensures r.pending == p.pending && r.last == p.last
    ensures r.sourceTypes == p.sourceTypes && r.sourceParameters == p.sourceParameters
    decreases |ps|
  {
    if |ps| == 0 then p
    else
      var q := LoadAll(p, ps[..|ps| - 1]);
      LoadSample(q, ps[|ps| - 1].samples, ps[|ps| - 1].id)
  }

  /** The padded buffers of queued samples, in arrival order. */
  function PaddedAll(ps: seq<Pending>): (bs: seq<seq<real>>)
    ensures |bs| == |ps|
  {
    seq(|ps|, i requires 0 <= i < |ps| => Padded(ps[i].samples))
  }

  /** The `alloc` and `load` calls that load queued samples. */
  function LoadCalls(ps: seq<Pending>): seq<Call>
    decreases |ps|
  {
    if |ps| == 0 then []
    else
      var last := ps[|ps| - 1];
      LoadCalls(ps[..|ps| - 1]) + [Alloc(|last.samples| + 3), Load(Padded(last.samples))]
  }

  /** Each queued sample costs an `alloc` of its padded size followed by a
      `load` of its padded data, in arrival order. */
  lemma {:induction false} LoadCallsPairs(ps: seq<Pending>)
    ensures |LoadCalls(ps)| == 2 * |ps|
    ensures forall i :: 0 <= i < |ps| ==>
      LoadCalls(ps)[2 * i] == Alloc(|ps[i].samples| + 3) && LoadCalls(ps)[2 * i + 1] == Load(Padded(ps[i].samples))
    decreases |ps|
  {
    if |ps| > 0 {
      var init := ps[..|ps| - 1];
      LoadCallsPairs(init);
      forall i | 0 <= i < |ps| - 1
        ensures ps[i] == init[i]
      {
      }
    }
  }

  lemma PaddedAllSnoc(ps: seq<Pending>)
    requires |ps| > 0
    ensures PaddedAll(ps) == PaddedAll(ps[..|ps| - 1]) + [Padded(ps[|ps| - 1].samples)]
  {
    var init := ps[..|ps| - 1];
    assert forall i :: 0 <= i < |init| ==> PaddedAll(init)[i] == Padded(ps[i].samples);
  }

  /** Loading the queue appends one padded buffer per queued sample, in
      arrival order. */
  lemma {:induction false} LoadAllBuffers(p: Processor, ps: seq<Pending>)
    requires p.wasm.Some?
    ensures LoadAll(p, ps).wasm.value.buffers == p.wasm.value.buffers + PaddedAll(ps)
    decreases |ps|
  {
    if |ps| == 0 {
      assert PaddedAll(ps) == [];
    } else {
      var init := ps[..|ps| - 1];
      LoadAllBuffers(p, init);
      PaddedAllSnoc(ps);
      var old_ := p.wasm.value.buffers;
      assert old_ + PaddedAll(init) + [Padded(ps[|ps| - 1].samples)] == old_ + PaddedAll(ps);
    }
  }

  /** Loading the queue adds its `alloc` and `load` calls to the record. */
  lemma {:induction false} LoadAllCalls(p: Processor, ps: seq<Pending>)
    requires p.wasm.Some?
    ensures LoadAll(p, ps).wasm.value.calls == p.wasm.value.calls + LoadCalls(ps)
    decreases |ps|
  {
    if |ps| > 0 {
      var init := ps[..|ps| - 1];
      LoadAllCalls(p, init);
      var last := ps[|ps| - 1];
      var c := p.wasm.value.calls;
      var pair := [Alloc(|last.samples| + 3), Load(Padded(last.samples))];
      assert c + LoadCalls(init) + pair == c + (LoadCalls(init) + pair);
    }
  }

  /** After loading the queue, an id resolves to the samples queued last
      under it. */
  lemma {:induction false} LoadAllResolves(p: Processor, ps: seq<Pending>, id: SampleId)
    requires p.wasm.Some? && LastFor(ps, id).Some?
    ensures Resolves(LoadAll(p, ps), id, LastFor(ps, id).value)
    decreases |ps|
  {
    var init := ps[..|ps| - 1];
    var last := ps[|ps| - 1];
    LoadSampleResolves(LoadAll(p, init), last.samples, last.id, id, LastFor(ps, id).value);
    if last.id != id {
      LoadAllResolves(p, init, id);
    }
  }

  /** An id that was not queued resolves as it did before. */
  lemma {:induction false} LoadAllKeeps(p: Processor, ps: seq<Pending>, id: SampleId, s: seq<real>)
    requires p.wasm.Some? && LastFor(ps, id).None? && Resolves(p, id, s)
    ensures Resolves(LoadAll(p, ps), id, s)
    decreases |ps|
  {
    if |ps| > 0 {
      var init := ps[..|ps| - 1];
      var last := ps[|ps| - 1];
      LoadAllKeeps(p, init, id, s);
      LoadSampleResolves(LoadAll(p, init), last.samples, last.id, id, s);
    }
  }

  /** The resolution of `WebAssembly.instantiate`: the memory grows, the
      queued samples are loaded in arrival order and the queue emptied, and
      the two output buffers are allocated last. */
  function Instantiated(p: Processor): Processor {
    var started := p.(wasm := Some(Wasm([], 0, [Grow(GrowPages)])));
    var loaded := LoadAll(started, p.pending);
    var w := loaded.wasm.value;
    loaded.(pending := [], wasm := Some(w.(calls := w.calls + [Alloc(OutSize), Alloc(OutSize)])))
  }

  /** Once the instance exists, every queued sample has a buffer of its
      own, numbered in arrival order, and the queue is empty. */
  lemma InstantiateLoadsPending(p: Processor)
    ensures var r := Instantiated(p);
      && r.wasm.Some? && r.pending == []
      && |r.wasm.value.buffers| == |p.pending|
      && (forall i :: 0 <= i < |p.pending| ==> r.wasm.value.buffers[i] == Padded(p.pending[i].samples))
      && r.sourceTypes == p.sourceTypes && r.sourceParameters == p.sourceParameters && r.last == p.last
  {
    var started := p.(wasm := Some(Wasm([], 0, [Grow(GrowPages)])));
    LoadAllBuffers(started, p.pending);
    assert [] + PaddedAll(p.pending) == PaddedAll(p.pending);
  }

  /** The calls of the instantiation: the memory grows first, then the
      queued samples are loaded, and the two output buffers are allocated
      last. */
  lemma InstantiateCalls(p: Processor)
    ensures Instantiated(p).wasm.value.calls
      == [Grow(GrowPages)] + LoadCalls(p.pending) + [Alloc(OutSize), Alloc(OutSize)]
  {
    var started := p.(wasm := Some(Wasm([], 0, [Grow(GrowPages)])));
    LoadAllCalls(started, p.pending);
  }

  /** Between the growth and the output buffers, each queued sample is
      allocated at its padded size and loaded, in arrival order. */
  lemma InstantiateCallOrder(p: Processor)
    ensures var cs := Instantiated(p).wasm.value.calls;
      && |cs| == 2 * |p.pending| + 3
      && cs[0] == Grow(GrowPages)
      && cs[|cs| - 2] == Alloc(OutSize) && cs[|cs| - 1] == Alloc(OutSize)
      && forall i :: 0 <= i < |p.pending| ==>
           cs[1 + 2 * i] == Alloc(|p.pending[i].samples| + 3) && cs[2 + 2 * i] == Load(Padded(p.pending[i].samples))
  {
    InstantiateCalls(p);
    LoadCallsPairs(p.pending);
    FramedLoads(Instantiated(p).wasm.value.calls, LoadCalls(p.pending), p.pending);
  }

  lemma FramedLoads(cs: seq<Call>, lc: seq<Call>, ps: seq<Pending>)
    requires cs == [Grow(GrowPages)] + lc + [Alloc(OutSize), Alloc(OutSize)]
    requires |lc| == 2 * |ps|
    requires forall i :: 0 <= i < |ps| ==>
      lc[2 * i] == Alloc(|ps[i].samples| + 3) && lc[2 * i + 1] == Load(Padded(ps[i].samples))
    ensures |cs| == 2 * |ps| + 3
    ensures cs[0] == Grow(GrowPages)
    ensures cs[|cs| - 2] == Alloc(OutSize) && cs[|cs| - 1] == Alloc(OutSize)
    ensures forall i :: 0 <= i < |ps| ==>
      cs[1 + 2 * i] == Alloc(|ps[i].samples| + 3) && cs[2 + 2 * i] == Load(Padded(ps[i].samples))
  {
    forall i | 0 <= i < |ps|
      ensures cs[1 + 2 * i] == lc[2 * i] && cs[2 + 2 * i] == lc[2 * i + 1]
    {
    }
  }

  /** The same, for one id: it resolves to the samples queued last under
      it. */
  lemma InstantiateResolves(p: Processor, id: SampleId)
    requires LastFor(p.pending, id).Some?
    ensures Resolves(Instantiated(p), id, LastFor(p.pending, id).value)
  {
    var started := p.(wasm := Some(Wasm([], 0, [Grow(GrowPages)])));
    LoadAllResolves(started, p.pending, id);
  }

  // ---------------------------------------------------------------------
  // Messages
  // ---------------------------------------------------------------------

  /** The event a `trigger` message carries: the source-type name, the
      timestamp, the sample id and the parameters in the order the object's
      entries come. */
  datatype TriggerEvent = TriggerEvent(sourceType: string, timestamp: real, sampleId: SampleId,
                                       params: seq<(string, real)>)

  /** The messages the port delivers, by their `type` field. */
  datatype Message =
    | LoadWasm
    | LoadSampleMessage(samples: seq<real>, sampleId: SampleId)
    | SourceTypes(types: map<string, int>)
    | SourceParameters(codes: map<string, int>)
    | TriggerMessage(event: TriggerEvent)
    | Unknown

  /** A key lookup in a JavaScript object: `undefined` when absent. */
  function Lookup<K, V>(m: map<K, V>, k: K): (r: Option<V>)
    ensures r.Some? <==> k in m
    ensures r.Some? ==> r.value == m[k]
  {
    if k in m then Some(m[k]) else None
  }

  /** One `set_instance_parameter` call per parameter, in entry order. */
  function ParamCalls(instance: nat, codes: map<string, int>, params: seq<(string, real)>): seq<Call>
    decreases |params|
  {
    if |params| == 0 then []
    else [SetInstanceParameter(instance, Lookup(codes, params[0].0), params[0].1)]
         + ParamCalls(instance, codes, params[1..])
  }

  lemma {:induction false} ParamCallsLaw(instance: nat, codes: map<string, int>, params: seq<(string, real)>)
    ensures |ParamCalls(instance, codes, params)| == |params|
    ensures forall k :: 0 <= k < |params| ==>
      ParamCalls(instance, codes, params)[k]
        == SetInstanceParameter(instance, Lookup(codes, params[k].0), params[k].1)
    decreases |params|
  {
    if |params| > 0 {
      ParamCallsLaw(instance, codes, params[1..]);
      var cs := ParamCalls(instance, codes, params);
      forall k | 0 <= k < |params|
        ensures cs[k] == SetInstanceParameter(instance, Lookup(codes, params[k].0), params[k].1)
      {
        if k > 0 {
          assert params[k] == params[1..][k - 1];
        }
      }
    }
  }

  /** The `trigger` branch. Without the instance it does nothing. Reading
      the source-type table before its message arrived throws before any
      call; reading the parameter table before its message arrived throws
      after `prepare`, so the prepared instance is never triggered. */
  function OnTrigger(p: Processor, e: TriggerEvent): Processor {
    if p.wasm.None? || p.sourceTypes.None? then p
    else
      var w := p.wasm.value;
      var instance := w.instances;
      var prep := Prepare(Lookup(p.sourceTypes.value, e.sourceType), e.timestamp,
                          Lookup(p.mapping, e.sampleId));
      if |e.params| > 0 && p.sourceParameters.None? then
        p.(wasm := Some(w.(instances := instance + 1, calls := w.calls + [prep])))
      else
        var codes := if p.sourceParameters.Some? then p.sourceParameters.value else map[];
        var sets := ParamCalls(instance, codes, e.params);
        p.(wasm := Some(w.(instances := instance + 1,
                           calls := w.calls + [prep] + sets + [TriggerInstance(instance)])))
  }

  /** A trigger is dropped while the instance is missing. Once both code
      tables are known it makes `2 + n` calls: `prepare` with the looked-up
      source code, timestamp and buffer number, one parameter call per
      entry on the new instance in entry order, and only then `trigger` of
      that same instance. Nothing but the wasm side changes. */
  lemma TriggerLaw(p: Processor, e: TriggerEvent)
    ensures p.wasm.None? ==> OnTrigger(p, e) == p
    ensures var r := OnTrigger(p, e);
      r.(wasm := p.wasm) == p
    ensures p.wasm.Some? && p.sourceTypes.Some? && p.sourceParameters.Some? ==>
      var w := p.wasm.value;
      var r := OnTrigger(p, e).wasm.value;
      var n := |w.calls|;
      && r.buffers == w.buffers && r.instances == w.instances + 1
      && |r.calls| == n + |e.params| + 2
      && r.calls[..n] == w.calls
      && r.calls[n] == Prepare(Lookup(p.sourceTypes.value, e.sourceType), e.timestamp,
                               Lookup(p.mapping, e.sampleId))
      && (forall k :: 0 <= k < |e.params| ==>
            r.calls[n + 1 + k] == SetInstanceParameter(w.instances,
                                     Lookup(p.sourceParameters.value, e.params[k].0), e.params[k].1))
      && r.calls[n + 1 + |e.params|] == TriggerInstance(w.instances)
  {
    if p.wasm.Some? && p.sourceTypes.Some? && p.sourceParameters.Some? {
      var w := p.wasm.value;
      var n := |w.calls|;
      var codes := p.sourceParameters.value;
      var sets := ParamCalls(w.instances, codes, e.params);
      ParamCallsLaw(w.instances, codes, e.params);
      var r := OnTrigger(p, e).wasm.value;
      assert r.calls == w.calls + [r.calls[n]] + sets + [TriggerInstance(w.instances)];
      forall k | 0 <= k < |e.params|
        ensures r.calls[n + 1 + k] == sets[k]
      {
      }
    }
  }

  /** A trigger before the parameter table arrived: `prepare` is called
      but, when the event has parameters, the instance is never
      triggered. */
  lemma TriggerWithoutParameterTable(p: Processor, e: TriggerEvent)
    requires p.wasm.Some? && p.sourceTypes.Some? && p.sourceParameters.None? && |e.params| > 0
    ensures var r := OnTrigger(p, e).wasm.value;
      && r.calls == p.wasm.value.calls + [r.calls[|p.wasm.value.calls|]]
      && r.calls[|p.wasm.value.calls|].Prepare?
      && forall c :: c in r.calls[|p.wasm.value.calls|..] ==> !c.TriggerInstance?
  {
    var r := OnTrigger(p, e).wasm.value;
    assert r.calls[|p.wasm.value.calls|..] == [r.calls[|p.wasm.value.calls|]];
  }

  /** The `loadSample` branch as written: with the instance present it calls
      a bare `loadSample(...)`, which names no function in the worklet's
      scope, so the handler throws and the sample is dropped. */
  function OnSampleAsWritten(p: Processor, samples: seq<real>, id: SampleId): Processor {
    if p.wasm.Some? then p
    else p.(pending := p.pending + [Pending(samples, id)])
  }

  /** The `loadSample` branch as intended: `this.loadSample(...)` once the
      instance exists, the queue before. */
  function OnSample(p: Processor, samples: seq<real>, id: SampleId): (r: Processor)
    ensures p.wasm.Some? ==> Resolves(r, id, samples)
    ensures p.wasm.None? ==>
      r == p.(pending := p.pending + [Pending(samples, id)]) && LastFor(r.pending, id) == Some(samples)
  {
    if p.wasm.Some? then
      LoadSampleResolves(p, samples, id, id, samples);
      LoadSample(p, samples, id)
    else
      var r := p.(pending := p.pending + [Pending(samples, id)]);
      assert r.pending[|r.pending| - 1] == Pending(samples, id);
      r
  }

  /** A sample arriving after the instance exists is lost as written: the
      handler changes nothing. */
  lemma LateSampleDropped(p: Processor, samples: seq<real>, id: SampleId)
    requires p.wasm.Some? && id !in p.mapping
    ensures OnSampleAsWritten(p, samples, id) == p
    ensures !Resolves(OnSampleAsWritten(p, samples, id), id, samples)
  {
  }

  /** The message handler. `loadWasm` only starts the instantiation; its
      result arrives later as `Instantiated`. */
  function OnMessage(p: Processor, m: Message): Processor {
    match m
    case LoadWasm => p
    case LoadSampleMessage(samples, id) => OnSample(p, samples, id)
    case SourceTypes(t) => p.(sourceTypes := Some(t))
    case SourceParameters(c) => p.(sourceParameters := Some(c))
    case TriggerMessage(e) => OnTrigger(p, e)
    case Unknown => p
  }

  /** The handler as written: identical but for the `loadSample` branch. */
  function OnMessageAsWritten(p: Processor, m: Message): Processor {
    match m
    case LoadSampleMessage(samples, id) => OnSampleAsWritten(p, samples, id)
    case _ => OnMessage(p, m)
  }

  // ---------------------------------------------------------------------
  // Rendering
  // ---------------------------------------------------------------------

  /** The `set_master_parameter` call for the `i`-th value. */
  function Push(now: Master, i: nat): Call
    requires i < 5
  {
    SetMasterParameter(MasterCodes[i], Field(now, i))
  }

  /** The master calls of one block, from the `i`-th value on: each value
      that differs from the one last pushed. */
  function MasterCalls(last: Master, now: Master, i: nat): seq<Call>
    requires i <= 5
    decreases 5 - i
  {
    if i == 5 then []
    else (if Field(last, i) != Field(now, i) then [Push(now, i)] else []) + MasterCalls(last, now, i + 1)
  }

  /** The `i`-th master value differs from the one last pushed. */
  predicate Changed(last: Master, now: Master, j: nat)
    requires j < 5
  {
    Field(last, j) != Field(now, j)
  }

  /** Every master call pushes a changed value under its code. */
  lemma {:induction false} MasterCallsSound(last: Master, now: Master, i: nat)
    requires i <= 5
    ensures forall c :: c in MasterCalls(last, now, i) ==>
      exists j :: i <= j < 5 && Changed(last, now, j) && c == Push(now, j)
    decreases 5 - i
  {
    if i < 5 {
      MasterCallsSound(last, now, i + 1);
    }
  }

  /** Every changed value is pushed. */
  lemma {:induction false} MasterCallsComplete(last: Master, now: Master, i: nat)
    requires i <= 5
    ensures forall j :: i <= j < 5 && Changed(last, now, j) ==> Push(now, j) in MasterCalls(last, now, i)
    decreases 5 - i
  {
    if i < 5 {
      MasterCallsComplete(last, now, i + 1);
    }
  }

  /** The codes decrease strictly along the descriptors. */
  lemma MasterCodesDecrease(i: nat, j: nat)
    requires i < j < 5
    ensures MasterCodes[i] > MasterCodes[j]
  {
  }

  /** Every master call from the `i`-th value on is a `set_master_parameter`
      call with a code no greater than the `i`-th. */
  lemma {:induction false} MasterCallsBounded(last: Master, now: Master, i: nat)
    requires i < 5
    ensures forall c :: c in MasterCalls(last, now, i) ==> c.SetMasterParameter? && c.code <= MasterCodes[i]
    decreases 5 - i
  {
    if i + 1 < 5 {
      MasterCallsBounded(last, now, i + 1);
      MasterCodesDecrease(i, i + 1);
    }
  }

  /** Master calls whose codes decrease strictly. */
  predicate Descending(cs: seq<Call>) {
    forall k1, k2 :: 0 <= k1 < k2 < |cs| ==>
      cs[k1].SetMasterParameter? && cs[k2].SetMasterParameter? && cs[k1].code > cs[k2].code
  }

  lemma DescendingCons(x: Call, rest: seq<Call>)
    requires x.SetMasterParameter? && Descending(rest)
    requires forall c :: c in rest ==> c.SetMasterParameter? && c.code < x.code
    ensures Descending([x] + rest)
  {
    var cs := [x] + rest;
    forall k1, k2 | 0 <= k1 < k2 < |cs|
      ensures cs[k1].SetMasterParameter? && cs[k2].SetMasterParameter? && cs[k1].code > cs[k2].code
    {
      assert cs[k2] == rest[k2 - 1];
      assert rest[k2 - 1] in rest;
      if k1 > 0 {
        assert cs[k1] == rest[k1 - 1];
      }
    }
  }

  /** The codes come strictly in descriptor order, so none is pushed
      twice. */
  lemma {:induction false} MasterCallsOrdered(last: Master, now: Master, i: nat)
    requires i <= 5
    ensures Descending(MasterCalls(last, now, i))
    decreases 5 - i
  {
    if i < 5 {
      MasterCallsOrdered(last, now, i + 1);
      var rest := MasterCalls(last, now, i + 1);
      if Changed(last, now, i) {
        if i + 1 < 5 {
          MasterCallsBounded(last, now, i + 1);
          MasterCodesDecrease(i, i + 1);
        }
        DescendingCons(Push(now, i), rest);
      } else {
        assert MasterCalls(last, now, i) == rest;
      }
    }
  }

  /** No master call exactly when nothing changed. */
  lemma MasterCallsNone(last: Master, now: Master)
    ensures MasterCalls(last, now, 0) == [] <==> last == now
  {
    MasterCallsComplete(last, now, 0);
    if MasterCalls(last, now, 0) == [] {
      assert !Changed(last, now, 0) && !Changed(last, now, 1) && !Changed(last, now, 2);
      assert !Changed(last, now, 3) && !Changed(last, now, 4);
    }
  }

  /** `process`: before the instance exists it renders nothing and keeps
      the node alive. Afterwards it pushes the changed master values,
      records them as last pushed, and renders one block. */
  function Process(p: Processor, now: Master, currentTime: real): (r: (bool, Processor))
    ensures r.0
    ensures p.wasm.None? ==> r.1 == p
  {
    if p.wasm.None? then (true, p)
    else
      var w := p.wasm.value;
      var calls := w.calls + MasterCalls(p.last, now, 0) + [Render(OutSize, currentTime)];
      (true, p.(wasm := Some(w.(calls := calls)), last := now))
  }

  /** A block after the instance exists records the values it saw, and
      touches nothing but the call record and those values. */
  lemma ProcessLaw(p: Processor, now: Master, currentTime: real)
    requires p.wasm.Some?
    ensures var r := Process(p, now, currentTime).1;
      && r.last == now && r.wasm.Some?
      && r.wasm.value.calls == p.wasm.value.calls + MasterCalls(p.last, now, 0) + [Render(OutSize, currentTime)]
      && r.wasm.value.buffers == p.wasm.value.buffers && r.wasm.value.instances == p.wasm.value.instances
      && r.(wasm := p.wasm, last := p.last) == p
  {
  }

  /** Steady parameters are pushed once: a second block with the same
      values makes no master call, only the render call. */
  lemma SteadyParametersPushOnce(p: Processor, now: Master, t1: real, t2: real)
    requires p.wasm.Some?
    ensures var q := Process(p, now, t1).1;
      Process(q, now, t2).1.wasm.value.calls == q.wasm.value.calls + [Render(OutSize, t2)]
  {
    MasterCallsNone(now, now);
  }

  /** Read as reals, the constructor's last values are the descriptor
      defaults, so a block whose parameters sit at those defaults pushes no
      master value. The block's parameters arrive as `Float32Array`
      elements, and the single-precision 0.65, 0.43 and 0.256 differ from
      the doubles the constructor stores; that difference is not part of
      this model. */
  lemma DefaultsPushNothing(p: Processor, now: Master)
    requires p.wasm.Some? && p.last == New().last
    requires forall i :: 0 <= i < 5 ==> Field(now, i) == DescriptorDefaults[i]
    ensures MasterCalls(p.last, now, 0) == []
  {
    assert Field(now, 0) == 0.65 && Field(now, 1) == 0.43 && Field(now, 2) == 0.256;
    assert Field(now, 3) == 0.5 && Field(now, 4) == 3000.0;
    MasterCallsNone(p.last, now);
  }

  // ---------------------------------------------------------------------
  // Runs
  // ---------------------------------------------------------------------

  /** What reaches the processor: a port message, the resolution of the
      instantiation, or a render quantum. */
  datatype Input = Receive(m: Message) | WasmReady | Block(now: Master, time: real)

  function Step(p: Processor, i: Input): Processor {
    match i
    case Receive(m) => OnMessage(p, m)
    case WasmReady => Instantiated(p)
    case Block(now, t) => Process(p, now, t).1
  }

  function StepAsWritten(p: Processor, i: Input): Processor {
    match i
    case Receive(m) => OnMessageAsWritten(p, m)
    case _ => Step(p, i)
  }

  function Run(p: Processor, ins: seq<Input>): Processor
    decreases |ins|
  {
    if |ins| == 0 then p else Run(Step(p, ins[0]), ins[1..])
  }

  function RunAsWritten(p: Processor, ins: seq<Input>): Processor
    decreases |ins|
  {
    if |ins| == 0 then p else RunAsWritten(StepAsWritten(p, ins[0]), ins[1..])
  }

  /** The samples for `id` are on their way: queued last under `id` while
      the instance is missing, loaded and mapped once it exists. */
  ghost predicate Tracks(p: Processor, id: SampleId, samples: seq<real>) {
    if p.wasm.None? then LastFor(p.pending, id) == Some(samples)
    else Resolves(p, id, samples)
  }

  /** An input that replaces what `id` stands for: a new sample under the
      same id, or a second instantiation. */
  predicate Disturbs(i: Input, id: SampleId, ready: bool) {
    (i.Receive? && i.m.LoadSampleMessage? && i.m.sampleId == id) || (i.WasmReady? && ready)
  }

  /** Every input but a disturbing one keeps the samples on their way;
      only the instantiation creates the instance. */
  lemma StepTracks(p: Processor, i: Input, id: SampleId, samples: seq<real>)
    requires Tracks(p, id, samples) && !Disturbs(i, id, p.wasm.Some?)
    ensures Tracks(Step(p, i), id, samples)
    ensures Step(p, i).wasm.Some? <==> p.wasm.Some? || i.WasmReady?
  {
    match i
    case WasmReady =>
      InstantiateResolves(p, id);
    case Block(now, t) =>
    case Receive(m) =>
      match m
      case LoadSampleMessage(s, other) =>
        if p.wasm.Some? {
          LoadSampleResolves(p, s, other, id, samples);
        } else {
          var ps := p.pending + [Pending(s, other)];
          assert ps[..|ps| - 1] == p.pending;
        }
      case _ =>
  }

  /** No input reuses `id` for other samples. */
  predicate KeepsId(ins: seq<Input>, id: SampleId) {
    forall k :: 0 <= k < |ins| ==> !(ins[k].Receive? && ins[k].m.LoadSampleMessage? && ins[k].m.sampleId == id)
  }

  /** The instance is created at most once. */
  predicate ReadyAtMostOnce(ins: seq<Input>) {
    forall k1, k2 :: 0 <= k1 < k2 < |ins| ==> ins[k1] != WasmReady || ins[k2] != WasmReady
  }

  /** Along a run with no disturbing input the samples stay on their way,
      and the instance exists at the end exactly when it existed at the
      start or the run created it. */
  lemma {:induction false} RunTracks(p: Processor, ins: seq<Input>, id: SampleId, samples: seq<real>)
    requires Tracks(p, id, samples) && KeepsId(ins, id) && ReadyAtMostOnce(ins)
    requires p.wasm.Some? ==> WasmReady !in ins
    ensures Tracks(Run(p, ins), id, samples)
    ensures Run(p, ins).wasm.Some? <==> p.wasm.Some? || WasmReady in ins
    decreases |ins|
  {
    if |ins| > 0 {
      var q := Step(p, ins[0]);
      StepTracks(p, ins[0], id, samples);
      var tail := ins[1..];
      assert forall k :: 0 <= k < |tail| ==> tail[k] == ins[k + 1];
      if ins[0] == WasmReady {
        assert forall k :: 0 <= k < |tail| ==> tail[k] != WasmReady;
      }
      RunTracks(q, tail, id, samples);
      assert ins == [ins[0]] + tail;
    }
  }

  /** With the intended handler a sample message is never lost: from any
      state, whether the instance already exists or is created once later,
      the id resolves to the samples once it exists, unless a later message
      reuses the id. */
  lemma SampleEventuallyLoaded(p: Processor, samples: seq<real>, id: SampleId, after: seq<Input>)
    requires KeepsId(after, id) && ReadyAtMostOnce(after)
    requires p.wasm.Some? <==> WasmReady !in after
    ensures Resolves(Run(p, [Receive(LoadSampleMessage(samples, id))] + after), id, samples)
  {
    var ins := [Receive(LoadSampleMessage(samples, id))] + after;
    assert ins[1..] == after;
    var q := OnSample(p, samples, id);
    RunTracks(q, after, id, samples);
  }

  /** The as-written handler loses a sample sent after the instance exists,
      where the intended one loads it. */
  lemma LateSampleLost(samples: seq<real>, id: SampleId)
    ensures var ins := [Receive(LoadWasm), WasmReady, Receive(LoadSampleMessage(samples, id))];
      && id !in RunAsWritten(New(), ins).mapping
      && Resolves(Run(New(), ins), id, samples)
  {
    var ins := [Receive(LoadWasm), WasmReady, Receive(LoadSampleMessage(samples, id))];
    assert ins[1..] == [WasmReady, Receive(LoadSampleMessage(samples, id))];
    assert ins[1..][1..] == [Receive(LoadSampleMessage(samples, id))];
    var ready := Instantiated(New());
    assert ready.mapping == map[];
    assert RunAsWritten(New(), ins) == RunAsWritten(ready, [Receive(LoadSampleMessage(samples, id))]);
    assert Run(New(), ins) == Run(ready, [Receive(LoadSampleMessage(samples, id))]);
  }
}
