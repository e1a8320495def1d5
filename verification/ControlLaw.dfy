/**
  The control law in the form the hosts run it: the sent values in two arrays,
  the engines asked for and running, the edge detectors; a tick makes its calls
  on the instrument through the cache. Tied to the law on values (LawTick).
 */
module ControlLaw {
  import opened Params
  import opened LawCache
  import opened LawEdges
  import opened LawTick

  /** The instrument a law is given. */
  class Instrument {
    const m: Machine
    var state: Inst

    constructor (m: Machine, i: Inst)
      ensures this.m == m && state == i
    {
      this.m := m;
      state := i;
    }

    method Set(f: AField, b: Bits)
      modifies this
      ensures state == LawCache.Set(m, old(state), f, b)
    {
      if Get(state, f) != b {
        state := Store(state, f, b);
        state := state.(dsp := m.react(state, f));
      }
    }

    method Act(call: Call, p: nat, b: Bits)
      modifies this
      ensures state == old(state).(dsp := m.act(old(state), Action(call, p, b)))
    {
      state := state.(dsp := m.act(state, Action(call, p, b)));
    }

    method Hook(p: nat, eng: int)
      modifies this
      ensures state == old(state).(dsp := m.hook(old(state), p, eng))
    {
      state := state.(dsp := m.hook(state, p, eng));
    }
  }

  class Law {
    const cacheOn: bool
    const sentBits: array<Bits>
    const sentValid: array<bool>
    const engAsked: array<int>
    const engRunning: array<int>
    const bbdEdge: seq<BbdEdgeState>
    const bbdRestoring: array<bool>
    const songRung: seq<SongRungState>
    const driftSettled: DriftSettleState

    ghost predicate Valid() {
      && sentBits.Length == SLOTS && sentValid.Length == SLOTS
      && engAsked.Length == PARTS && engRunning.Length == PARTS && bbdRestoring.Length == PARTS
      && sentBits != engAsked && sentBits != engRunning && engAsked != engRunning && sentValid != bbdRestoring
      && |bbdEdge| == PARTS && |songRung| == PARTS && bbdEdge[0] != bbdEdge[1] && songRung[0] != songRung[1]
    }

    ghost function Cache(): LawCache.Cache
      requires Valid()
      reads sentBits, sentValid
    {
      LawCache.Cache(sentValid[..], sentBits[..])
    }

    ghost function DeckEngines(p: nat): Engines
      requires Valid() && p < PARTS
      reads engAsked, engRunning
    {
      Engines(engAsked[p], engRunning[p])
    }

    ghost function Detectors(p: nat): DeckEdges
      requires Valid() && p < PARTS
      reads bbdEdge[p], bbdRestoring, songRung[p]
    {
      DeckEdges(bbdEdge[p].Model(), bbdRestoring[p], songRung[p].Model())
    }

    ghost function Model(): LawTick.Law
      requires Valid()
      reads sentBits, sentValid, engAsked, engRunning, bbdEdge, bbdRestoring, songRung, driftSettled
    {
      LawTick.Law(Cache(), DeckEngines(0), DeckEngines(1), Edges(Detectors(0), Detectors(1), driftSettled.Model()))
    }

    /** Nothing sent, no engine asked for, every detector waiting for its baseline. */
    constructor (cacheOn: bool)
      ensures Valid() && this.cacheOn == cacheOn
      ensures Cache() == ForgetAll(Cache()) && DeckEngines(0) == DeckEngines(1) == Engines(NONE, NONE)
      ensures Detectors(0) == Detectors(1) == NewDetectors() && driftSettled.Model() == Drift(false, false)
    {
      this.cacheOn := cacheOn;
      sentBits := new Bits[SLOTS];
      sentValid := new bool[SLOTS];
      engAsked := new int[PARTS];
      engRunning := new int[PARTS];
      bbdRestoring := new bool[][false, false];
      var bbdA := new BbdEdgeState();
      var bbdB := new BbdEdgeState();
      bbdEdge := [bbdA, bbdB];
      var songA := new SongRungState();
      var songB := new SongRungState();
      songRung := [songA, songB];
      driftSettled := new DriftSettleState();
      new;
      hide ForgetAll;
      assert bbdEdge[0] == bbdA && bbdEdge[1] == bbdB && songRung[0] == songA && songRung[1] == songB;
      assert Detectors(0) == NewDetectors();
      assert Detectors(1) == NewDetectors();
      OnInstrumentInit();
    }

    // ---- the cache -------------------------------------------------------------------

    /** Whether a value has to be sent; if so it is marked as sent. */
    method IsFresh(k: nat, b: Bits) returns (send: bool)
      requires Valid() && k < SLOTS
      modifies sentBits, sentValid
      ensures send == Fresh(cacheOn, old(Cache()), k, b)
      ensures Cache() == if send then Sent(old(Cache()), k, b) else old(Cache())
    {
      if cacheOn && sentValid[k] && sentBits[k] == b {
        return false;
      }
      sentValid[k] := true;
      sentBits[k] := b;
      return true;
    }

    method Put(inst: Instrument, f: AField, b: Bits)
      requires Valid()
      modifies sentBits, sentValid, inst
      ensures Pair(Cache(), inst.state) == LawCache.Put(inst.m, cacheOn, old(Pair(Cache(), inst.state)), f, b)
    {
      hide Slot, LawCache.Set;
      var send := IsFresh(Slot(f), b);
      if send {
        inst.Set(f, b);
      }
    }

    method ForgetDeck(p: nat)
      requires Valid() && p < PARTS
      modifies sentValid
      ensures Cache() == LawCache.ForgetDeck(old(Cache()), p)
    {
      for d := 0 to D_COUNT
        invariant forall k | 0 <= k < SLOTS ::
                    sentValid[k] == (old(sentValid[k]) && !(G_COUNT + p * D_COUNT <= k < G_COUNT + p * D_COUNT + d))
      {
        sentValid[G_COUNT + p * D_COUNT + d] := false;
      }
    }

    // ---- the forget points ----------------------------------------------------------------

    method OnInstrumentInit()
      requires Valid()
      modifies sentValid, engAsked, engRunning
      ensures Cache() == ForgetAll(old(Cache())) == ForgetAll(Cache())
      ensures DeckEngines(0) == DeckEngines(1) == Engines(NONE, NONE)
    {
      for k := 0 to SLOTS
        invariant forall j | 0 <= j < k :: !sentValid[j]
      {
        sentValid[k] := false;
      }
      assert sentValid[..] == ForgetAll(old(Cache())).valid;
      for p := 0 to PARTS
        invariant sentValid[..] == ForgetAll(old(Cache())).valid
        invariant forall q | 0 <= q < p :: engAsked[q] == NONE && engRunning[q] == NONE
      {
        engAsked[p] := NONE;
        engRunning[p] := NONE;
      }
    }

    method RearmSongs()
      requires Valid()
      modifies songRung
      ensures forall p | 0 <= p < PARTS :: songRung[p].Model() == old(songRung[p].Model()).(seeded := false)
    {
      songRung[0].Rearm();
      songRung[1].Rearm();
    }

    method OnReset()
      requires Valid()
      modifies sentValid, engAsked, engRunning, songRung, driftSettled
      ensures Model() == LawTick.OnReset(old(Model()))
    {
      RearmSongs();
      driftSettled.Rearm();
      OnInstrumentInit();
    }

    method RearmBbds()
      requires Valid()
      modifies bbdEdge, bbdRestoring
      ensures forall p | 0 <= p < PARTS ::
                bbdEdge[p].Model() == old(bbdEdge[p].Model()).(seeded := false) && bbdRestoring[p]
    {
      bbdEdge[0].Rearm();
      bbdRestoring[0] := true;
      bbdEdge[1].Rearm();
      bbdRestoring[1] := true;
    }

    method OnRestore()
      requires Valid()
      modifies sentValid, engAsked, engRunning, bbdEdge, bbdRestoring, songRung, driftSettled
      ensures Model() == LawTick.OnRestore(old(Model()))
    {
      hide LawTick.OnReset;
      RearmBbds();
      OnReset();
    }

    // ---- a tick -----------------------------------------------------------------------------

    method DoDeckOp(inst: Instrument, x: Context, p: nat, op: DeckOp)
      requires Valid() && x.m == inst.m && x.on == cacheOn && p < PARTS
      modifies sentBits, sentValid, inst
      ensures Pair(Cache(), inst.state) == LawTick.DoDeckOp(x, old(Pair(Cache(), inst.state)), p, op)
    {
      hide LawCache.Put, Value;
      match op
      case Cached(df, e) =>
        Put(inst, Deck(p, df), Value(x, p, e));
      case Direct(call, e) =>
        inst.Act(call, p, Value(x, p, e));
    }

    method DoDeckOps(inst: Instrument, x: Context, p: nat, ops: seq<DeckOp>)
      requires Valid() && x.m == inst.m && x.on == cacheOn && p < PARTS
      modifies sentBits, sentValid, inst
      ensures Pair(Cache(), inst.state) == LawTick.DoDeckOps(x, old(Pair(Cache(), inst.state)), p, ops)
    {
      hide LawTick.DoDeckOp;
      for k := 0 to |ops|
        invariant LawTick.DoDeckOps(x, Pair(Cache(), inst.state), p, ops[k..])
                  == LawTick.DoDeckOps(x, old(Pair(Cache(), inst.state)), p, ops)
      {
        assert ops[k..][1..] == ops[k + 1..];
        DoDeckOp(inst, x, p, ops[k]);
      }
    }

    method DoOps(inst: Instrument, x: Context, ops: seq<Op>)
      requires Valid() && x.m == inst.m && x.on == cacheOn
      modifies sentBits, sentValid, inst
      ensures Pair(Cache(), inst.state) == LawTick.DoOps(x, old(Pair(Cache(), inst.state)), ops)
    {
      hide LawCache.Put, Value;
      for k := 0 to |ops|
        invariant LawTick.DoOps(x, Pair(Cache(), inst.state), ops[k..])
                  == LawTick.DoOps(x, old(Pair(Cache(), inst.state)), ops)
      {
        assert ops[k..][1..] == ops[k + 1..];
        match ops[k]
        case CachedAt(f, p, e) =>
          Put(inst, f, Value(x, p, e));
        case DirectAt(call, p, e) =>
          inst.Act(call, p, Value(x, p, e));
      }
    }

    /** An engine change forgets this deck's sent values. */
    method Notice(p: nat, asked: int, running: int)
      requires Valid() && p < PARTS
      modifies sentValid, engAsked
      ensures Cache() == Noticed(old(Model()), p, asked, running)
      ensures engAsked[..] == old(engAsked[..])[p := asked]
    {
      hide LawCache.ForgetDeck;
      if asked != engAsked[p] || running != engRunning[p] {
        ForgetDeck(p);
      }
      engAsked[p] := asked;
    }

    method Record(inst: Instrument, p: nat, recOn: bool) returns (started: bool)
      requires Valid()
      modifies inst
      ensures var (w, rec) := LawTick.Record(inst.m, old(Pair(Cache(), inst.state)), p, recOn);
              w == Pair(Cache(), inst.state) && rec == started
    {
      var want := recOn && Running(inst.state, p) == ENGINE_SAMPLER;
      started := false;
      if want != inst.m.recording(inst.state.dsp, p) {
        inst.Act(SamplerRecord, p, if want then 1 else 0);
        started := want;
      }
    }

    method DeckHead(inst: Instrument, x: Context, p: nat) returns (started: bool)
      requires Valid() && x.m == inst.m && x.on == cacheOn && p < PARTS
      modifies sentBits, sentValid, inst
      ensures (Pair(Cache(), inst.state), started) == LawTick.DeckHead(x, old(Pair(Cache(), inst.state)), p)
    {
      hide LawTick.DoDeckOps, PreOps, EngineOps, SamplerOps, EngineOf, LawTick.Record;
      var d := InputOf(x.t, p);
      DoDeckOps(inst, x, p, PreOps(Running(inst.state, p)));
      DoDeckOps(inst, x, p, EngineOps(EngineOf(d)));
      inst.Hook(p, d.eng);
      DoDeckOps(inst, x, p, SamplerOps());
      started := Record(inst, p, d.recOn);
    }

    method DeckTail(inst: Instrument, x: Context, p: nat, newPhrase: bool, rung: int)
      requires Valid() && x.m == inst.m && x.on == cacheOn && p < PARTS
      modifies sentBits, sentValid, inst
      ensures Pair(Cache(), inst.state) == LawTick.DeckTail(x, old(Pair(Cache(), inst.state)), p, newPhrase, rung)
    {
      hide LawTick.DoDeckOps, SurfaceOps, SongOps;
      DoDeckOps(inst, x, p, SurfaceOps(Running(inst.state, p)));
      DoDeckOps(inst, x, p, SongOps(newPhrase, rung, Running(inst.state, p)));
    }

    /** The deck's detectors look: the BBD edge held while a restore is landing. */
    method Detect(p: nat, view: DeckView) returns (fired: DeckFired)
      requires Valid() && p < PARTS
      modifies bbdEdge[p], bbdRestoring, songRung[p]
      ensures (Detectors(p), fired) == DeckStep(old(Detectors(p)), view)
      ensures bbdRestoring[1 - p] == old(bbdRestoring[1 - p])
    {
      if bbdRestoring[p] {
        if view.landed {
          bbdRestoring[p] := false;
        }
        bbdEdge[p].Rearm();
      }
      var edge := bbdEdge[p].Tick(view.bbdPart);
      var changed := songRung[p].Tick(view.song, SONG_LADDER_COUNT);
      fired := DeckFired(edge, changed);
    }

    method DeckTop(inst: Instrument, x: Context, p: nat) returns (started: bool)
      requires Valid() && x.m == inst.m && x.on == cacheOn && p < PARTS
      modifies sentBits, sentValid, engAsked, inst
      ensures var asked := AskedKey(InputOf(x.t, p));
              && (Pair(Cache(), inst.state), started)
                 == LawTick.DeckHead(x, Pair(Noticed(old(Model()), p, asked, Running(old(inst.state), p)),
                                             old(inst.state)), p)
              && engAsked[..] == old(engAsked[..])[p := asked]
    {
      hide Noticed, LawTick.DeckHead;
      Notice(p, AskedKey(InputOf(x.t, p)), Running(inst.state, p));
      started := DeckHead(inst, x, p);
    }

    method DeckBlock(inst: Instrument, x: Context, p: nat) returns (report: DeckReport)
      requires Valid() && x.m == inst.m && x.on == cacheOn && p < PARTS
      modifies sentBits, sentValid, engAsked, engRunning, bbdEdge[p], bbdRestoring, songRung[p], inst
      ensures DeckResult(World(Model(), inst.state), report) == DeckTick(x, old(World(Model(), inst.state)), p)
    {
      hide Noticed, LawTick.DeckHead, LawTick.DeckTail, DeckStep, EngineOf;
      var d := InputOf(x.t, p);
      var rec := DeckTop(inst, x, p);
      var view := ViewOf(d, Running(inst.state, p));
      var fired := Detect(p, view);
      DeckTail(inst, x, p, fired.newPhrase, songRung[p].rung);
      engRunning[p] := Running(inst.state, p);
      report := DeckReport(view, fired, rec);
    }

    method CentreBlock(inst: Instrument, x: Context) returns (settle: bool)
      requires Valid() && x.m == inst.m && x.on == cacheOn
      modifies sentBits, sentValid, driftSettled, inst
      ensures (World(Model(), inst.state), settle) == CentreTick(x, old(World(Model(), inst.state)))
    {
      hide LawTick.DoOps, LayerOps, CentreOps;
      DoOps(inst, x, LayerOps(|MOD_LAYER|));
      settle := driftSettled.Tick(x.t.driftInZone);
      DoOps(inst, x, CentreOps(settle));
    }

    /** One control tick. */
    method Tick(inst: Instrument, t: Input) returns (report: Report)
      requires Valid()
      modifies sentBits, sentValid, engAsked, engRunning, bbdEdge, bbdRestoring, songRung, driftSettled, inst
      ensures TickResult(World(Model(), inst.state), report)
              == LawTick.Tick(inst.m, cacheOn, old(World(Model(), inst.state)), t)
    {
      hide LawTick.DoOp, DeckTick, CentreTick;
      var x := Context(inst.m, cacheOn, t, inst.m.frame(inst.state.dsp));
      var shuffle := CachedAt(Global(G_SHUFFLE), 0, Raw(SHUFFLE));
      DoOps(inst, x, [shuffle]);
      var a := DeckBlock(inst, x, 0);
      var b := DeckBlock(inst, x, 1);
      var settle := CentreBlock(inst, x);
      report := Report(a, b, t.driftInZone, settle);
    }
  }
}
