/** The process-wide engine state of Graphics2D.cpp: a reference counter that
    guards one drawing-engine factory and one text-layout factory, and the
    separately, idempotently managed image-codec factory. */
module Engine {
  import opened Native

  /** The counter and the two factory pointers it guards. */
  datatype Engine = Engine(counter: nat, graphics: Ptr, write: Ptr)

  /** The result of one step on the engine state: whether it raised (the
      source throws), the new state, the calls issued and the handles released. */
  datatype Step = Step(raised: bool, after: Engine, apis: seq<Api>, released: seq<Handle>)

  /** While the counter is positive, both factories exist. */
  predicate Live(e: Engine) {
    e.counter > 0 ==> e.graphics != Null && e.write != Null
  }

  /** Live, and at counter zero both factory pointers are null. */
  predicate Consistent(e: Engine) {
    Live(e) && (e.counter == 0 ==> e.graphics == Null && e.write == Null)
  }

  /** _gd2a_Init: build both factories on the 0 -> 1 transition, then count
      one more user. A factory not created with S_OK makes it raise before
      the increment; the factory pointers already written stay written. */
  function InitStep(e: Engine, graphics: Creation, write: Creation): (s: Step)
    ensures s.released == []
    ensures s.raised <==> e.counter == 0 && (graphics.status != S_OK || write.status != S_OK)
    ensures s.after.counter == if s.raised then e.counter else e.counter + 1
    ensures e.counter > 0 ==> s.after == e.(counter := e.counter + 1) && s.apis == []
    ensures e.counter == 0 ==>
      && s.after.graphics == graphics.Written()
      && s.after.write == (if graphics.status == S_OK then write.Written() else e.write)
      && s.apis == [CoInitialize, D2D1CreateFactory] +
                   (if graphics.status == S_OK then [DWriteCreateFactory] else [])
    ensures !s.raised && e.counter == 0 ==> s.after.graphics != Null && s.after.write != Null
    ensures Live(e) ==> Live(s.after)
  {
    if e.counter == 0 then
      if graphics.status != S_OK then
        Step(true, e.(graphics := graphics.Written()), [CoInitialize, D2D1CreateFactory], [])
      else if write.status != S_OK then
        Step(true, e.(graphics := graphics.Written(), write := write.Written()),
             [CoInitialize, D2D1CreateFactory, DWriteCreateFactory], [])
      else
        Step(false, Engine(1, graphics.Written(), write.Written()),
             [CoInitialize, D2D1CreateFactory, DWriteCreateFactory], [])
    else
      Step(false, e.(counter := e.counter + 1), [], [])
  }

  /** _gd2a_Uninit: a no-op at zero; otherwise one user fewer, and on reaching
      zero both factories are released (when non-null) and nulled. */
  function UninitStep(e: Engine): (s: Step)
    ensures !s.raised && s.apis == []
    ensures e.counter == 0 ==> s.after == e && s.released == []
    ensures e.counter > 0 ==> s.after.counter == e.counter - 1
    ensures e.counter > 1 ==> s.after == e.(counter := e.counter - 1) && s.released == []
    ensures e.counter == 1 ==>
      && s.after == Engine(0, Null, Null)
      && s.released == Holding(e.graphics, GraphicsFactory) + Holding(e.write, WriteFactory)
    ensures Live(e) ==> Live(s.after)
    ensures Consistent(e) ==> Consistent(s.after)
  {
    if e.counter == 0 then
      Step(false, e, [], [])
    else if e.counter == 1 then
      Step(false, Engine(0, Null, Null), [],
           Holding(e.graphics, GraphicsFactory) + Holding(e.write, WriteFactory))
    else
      Step(false, e.(counter := e.counter - 1), [], [])
  }

  /** A call of _gd2a_Init (with the factory answers it would get) or of _gd2a_Uninit. */
  datatype Op = InitOp(graphics: Creation, write: Creation) | UninitOp

  function Apply(e: Engine, op: Op): Step {
    match op
    case InitOp(g, w) => InitStep(e, g, w)
    case UninitOp => UninitStep(e)
  }

  /** A sequence of calls run one after the other, collecting what they issue. */
  function Run(e: Engine, ops: seq<Op>): Step
    decreases |ops|
  {
    if ops == [] then Step(false, e, [], [])
    else
      var s := Apply(e, ops[0]);
      var t := Run(s.after, ops[1..]);
      Step(s.raised || t.raised, t.after, s.apis + t.apis, s.released + t.released)
  }

  /** Every Init in the sequence gets both factories created with S_OK. */
  predicate AllSucceed(ops: seq<Op>) {
    forall i :: 0 <= i < |ops| && ops[i].InitOp? ==>
      ops[i].graphics.status == S_OK && ops[i].write.status == S_OK
  }

  /** Starting from counter c, no Uninit is issued while the counter is zero. */
  predicate Nested(c: nat, ops: seq<Op>)
    decreases |ops|
  {
    ops == [] ||
    match ops[0]
    case InitOp(_, _) => Nested(c + 1, ops[1..])
    case UninitOp => c > 0 && Nested(c - 1, ops[1..])
  }

  /** c plus the number of Inits minus the number of Uninits. */
  function Level(c: int, ops: seq<Op>): int
    decreases |ops|
  {
    if ops == [] then c
    else Level(if ops[0].InitOp? then c + 1 else c - 1, ops[1..])
  }

  function Alive(c: nat): nat {
    if c > 0 then 1 else 0
  }

  /** One successful call that does not Uninit at zero moves the counter by
      one, keeps the state consistent, and creates a factory exactly when it
      brings the counter to life and releases one exactly when it kills it. */
  lemma StepBalanced(e: Engine, op: Op)
    requires Consistent(e)
    requires op.InitOp? ==> op.graphics.status == S_OK && op.write.status == S_OK
    requires op.UninitOp? ==> e.counter > 0
    ensures var s := Apply(e, op);
      && !s.raised
      && Consistent(s.after)
      && s.after.counter == (if op.InitOp? then e.counter + 1 else e.counter - 1)
      && multiset(s.apis)[D2D1CreateFactory] + Alive(e.counter)
         == KindCount(s.released, GraphicsFactory) + Alive(s.after.counter)
      && multiset(s.apis)[DWriteCreateFactory] + Alive(e.counter)
         == KindCount(s.released, WriteFactory) + Alive(s.after.counter)
  {
    var s := Apply(e, op);
    if op.UninitOp? && e.counter == 1 {
      assert s.released == [Handle(GraphicsFactory, e.graphics.obj), Handle(WriteFactory, e.write.obj)];
      assert s.released[1..] == [Handle(WriteFactory, e.write.obj)];
    }
  }

  lemma AllSucceedTail(ops: seq<Op>)
    requires ops != [] && AllSucceed(ops)
    ensures AllSucceed(ops[1..])
  {
    forall i | 0 <= i < |ops[1..]| && ops[1..][i].InitOp?
      ensures ops[1..][i].graphics.status == S_OK && ops[1..][i].write.status == S_OK
    {
      assert ops[1..][i] == ops[i + 1];
    }
  }

  /** A nested run of successful calls leaves the counter at the balance of
      Inits over Uninits, keeps the factories present exactly while the
      counter is positive, never raises, and creates each factory exactly as
      often as it releases it, up to the one that is alive at either end. */
  lemma {:induction false} RunBalanced(e: Engine, ops: seq<Op>)
    requires Consistent(e) && AllSucceed(ops) && Nested(e.counter, ops)
    ensures var r := Run(e, ops);
      && !r.raised
      && r.after.counter == Level(e.counter, ops)
      && Consistent(r.after)
      && multiset(r.apis)[D2D1CreateFactory] + Alive(e.counter)
         == KindCount(r.released, GraphicsFactory) + Alive(r.after.counter)
      && multiset(r.apis)[DWriteCreateFactory] + Alive(e.counter)
         == KindCount(r.released, WriteFactory) + Alive(r.after.counter)
    decreases |ops|
  {
    if ops != [] {
      var op := ops[0];
      var s := Apply(e, op);
      var next: nat := if op.InitOp? then e.counter + 1 else e.counter - 1;
      assert Nested(next, ops[1..]) && Level(e.counter, ops) == Level(next, ops[1..]);
      assert op.InitOp? ==> op.graphics.status == S_OK && op.write.status == S_OK;
      StepBalanced(e, op);
      AllSucceedTail(ops);
      RunBalanced(s.after, ops[1..]);
      var t := Run(s.after, ops[1..]);
      assert Run(e, ops) == Step(s.raised || t.raised, t.after, s.apis + t.apis, s.released + t.released);
      KindCountAppend(s.released, t.released, GraphicsFactory);
      KindCountAppend(s.released, t.released, WriteFactory);
    }
  }

  /** n copies of one call. */
  function Repeat(op: Op, n: nat): (ops: seq<Op>)
    ensures |ops| == n && forall i :: 0 <= i < n ==> ops[i] == op
  {
    if n == 0 then [] else [op] + Repeat(op, n - 1)
  }

  lemma {:induction false} InitsNest(g: Creation, w: Creation, n: nat, c: nat, rest: seq<Op>)
    requires Nested(c + n, rest)
    ensures Nested(c, Repeat(InitOp(g, w), n) + rest)
    ensures Level(c, Repeat(InitOp(g, w), n) + rest) == Level(c + n, rest)
  {
    if n > 0 {
      var ops := Repeat(InitOp(g, w), n) + rest;
      assert ops[0] == InitOp(g, w);
      assert ops[1..] == Repeat(InitOp(g, w), n - 1) + rest;
      InitsNest(g, w, n - 1, c + 1, rest);
    } else {
      assert Repeat(InitOp(g, w), n) + rest == rest;
    }
  }

  lemma {:induction false} UninitsNest(n: nat, c: nat)
    requires n <= c
    ensures Nested(c, Repeat(UninitOp, n))
    ensures Level(c, Repeat(UninitOp, n)) == c - n
  {
    if n > 0 {
      assert Repeat(UninitOp, n)[0] == UninitOp;
      assert Repeat(UninitOp, n)[1..] == Repeat(UninitOp, n - 1);
      UninitsNest(n - 1, c - 1);
    }
  }

  lemma RepeatsSucceed(g: Creation, w: Creation, n: nat)
    requires g.status == S_OK && w.status == S_OK
    ensures AllSucceed(Repeat(InitOp(g, w), n) + Repeat(UninitOp, n))
  {
    var inits, ops := Repeat(InitOp(g, w), n), Repeat(InitOp(g, w), n) + Repeat(UninitOp, n);
    forall i | 0 <= i < |ops| && ops[i].InitOp?
      ensures ops[i].graphics.status == S_OK && ops[i].write.status == S_OK
    {
      if i < n {
        assert ops[i] == inits[i];
      }
    }
  }

  /** n successful Inits followed by n Uninits, from the initial state, restore
      counter zero with both factories null, and release every factory built. */
  lemma {:induction false} InitsThenUninits(g: Creation, w: Creation, n: nat)
    requires g.status == S_OK && w.status == S_OK
    ensures var r := Run(Engine(0, Null, Null), Repeat(InitOp(g, w), n) + Repeat(UninitOp, n));
      && !r.raised
      && r.after == Engine(0, Null, Null)
      && multiset(r.apis)[D2D1CreateFactory] == KindCount(r.released, GraphicsFactory)
      && multiset(r.apis)[DWriteCreateFactory] == KindCount(r.released, WriteFactory)
  {
    var ops := Repeat(InitOp(g, w), n) + Repeat(UninitOp, n);
    UninitsNest(n, n);
    InitsNest(g, w, n, 0, Repeat(UninitOp, n));
    RepeatsSucceed(g, w, n);
    RunBalanced(Engine(0, Null, Null), ops);
    var r := Run(Engine(0, Null, Null), ops);
    assert r.after.counter == 0;
  }

  /** On a live engine at counter c, m further Inits and then c + m Uninits
      issue nothing and release exactly the two stored factories, once. */
  lemma {:induction false} LiveInitsThenUninits(g: Creation, w: Creation, m: nat, c: nat,
                                                graphics: Ptr, write: Ptr)
    requires c > 0
    ensures Run(Engine(c, graphics, write), Repeat(InitOp(g, w), m) + Repeat(UninitOp, c + m))
            == Step(false, Engine(0, Null, Null), [],
                    Holding(graphics, GraphicsFactory) + Holding(write, WriteFactory))
  {
    var ops := Repeat(InitOp(g, w), m) + Repeat(UninitOp, c + m);
    if m == 0 {
      assert ops == Repeat(UninitOp, c);
      UninitsToZero(c, graphics, write);
    } else {
      assert ops[0] == InitOp(g, w);
      assert ops[1..] == Repeat(InitOp(g, w), m - 1) + Repeat(UninitOp, (c + 1) + (m - 1));
      LiveInitsThenUninits(g, w, m - 1, c + 1, graphics, write);
    }
  }

  /** n Uninits from counter n release exactly the two stored factories, once. */
  lemma {:induction false} UninitsToZero(n: nat, graphics: Ptr, write: Ptr)
    requires n > 0
    ensures Run(Engine(n, graphics, write), Repeat(UninitOp, n))
            == Step(false, Engine(0, Null, Null), [],
                    Holding(graphics, GraphicsFactory) + Holding(write, WriteFactory))
  {
    var ops := Repeat(UninitOp, n);
    assert ops[0] == UninitOp && ops[1..] == Repeat(UninitOp, n - 1);
    if n > 1 {
      UninitsToZero(n - 1, graphics, write);
    } else {
      assert ops[1..] == [];
    }
  }

  /** n successful Inits then n Uninits from the initial state create each
      factory once and release exactly those two objects: the handles given
      back are the ones the first Init stored. */
  lemma InitsThenUninitsReleaseStored(g: Creation, w: Creation, n: nat)
    requires g.status == S_OK && w.status == S_OK && n > 0
    ensures var r := Run(Engine(0, Null, Null), Repeat(InitOp(g, w), n) + Repeat(UninitOp, n));
      && r.apis == [CoInitialize, D2D1CreateFactory, DWriteCreateFactory]
      && r.released == [Handle(GraphicsFactory, g.obj), Handle(WriteFactory, w.obj)]
  {
    var ops := Repeat(InitOp(g, w), n) + Repeat(UninitOp, n);
    assert ops[0] == InitOp(g, w);
    assert ops[1..] == Repeat(InitOp(g, w), n - 1) + Repeat(UninitOp, 1 + (n - 1));
    LiveInitsThenUninits(g, w, n - 1, 1, g.Written(), w.Written());
  }

  /** An Init whose drawing factory is built but whose text factory is not
      raises with the counter still zero and the drawing factory stored;
      the Uninit that follows is a no-op, so that factory is never released. */
  lemma FailedInitIsNotUndone(g: Creation, w: Creation)
    requires g.status == S_OK && w.status != S_OK
    ensures var s := InitStep(Engine(0, Null, Null), g, w);
      && s.raised && s.after.counter == 0 && s.after.graphics == g.Written() != Null
      && !Consistent(s.after)
      && UninitStep(s.after).after == s.after && UninitStep(s.after).released == []
  {
  }

  /** The globals of Graphics2D.cpp: _gd2a_counter, _gd2a_graphics_pFactory,
      _gd2a_write_pFactory and _wic_pFactory. */
  class Globals {
    var counter: nat
    var graphicsFactory: Ptr
    var writeFactory: Ptr
    var wicFactory: Ptr

    function State(): Engine
      reads this
    {
      Engine(counter, graphicsFactory, writeFactory)
    }

    ghost predicate Valid()
      reads this
    {
      Live(State())
    }

    /** Static initialisation: counter zero, every factory pointer null. */
    constructor ()
      ensures Valid() && State() == Engine(0, Null, Null) && wicFactory == Null
    {
      counter, graphicsFactory, writeFactory, wicFactory := 0, Null, Null, Null;
    }

    /** _gd2a_Init; `raised` stands for the thrown exception. */
    method Init(graphics: Creation, write: Creation) returns (raised: bool, apis: seq<Api>)
      requires Valid()
      modifies this`counter, this`graphicsFactory, this`writeFactory
      ensures Valid()
      ensures var s := InitStep(old(State()), graphics, write);
        raised == s.raised && State() == s.after && apis == s.apis
    {
      raised, apis := false, [];
      if counter == 0 {
        apis := [CoInitialize, D2D1CreateFactory];
        graphicsFactory := graphics.Written();
        if graphics.status != S_OK {
          raised := true;
          return;
        }
        apis := apis + [DWriteCreateFactory];
        writeFactory := write.Written();
        if write.status != S_OK {
          raised := true;
          return;
        }
      }
      counter := counter + 1;
    }

    /** _gd2a_Uninit. */
    method Uninit() returns (released: seq<Handle>)
      requires Valid()
      modifies this`counter, this`graphicsFactory, this`writeFactory
      ensures Valid()
      ensures var s := UninitStep(old(State())); State() == s.after && released == s.released
    {
      released := [];
      if counter == 0 {
        return;
      }
      counter := counter - 1;
      if counter == 0 {
        released := Holding(graphicsFactory, GraphicsFactory) + Holding(writeFactory, WriteFactory);
        graphicsFactory := Null;
        writeFactory := Null;
      }
    }

    /** WICInitialize: creates the imaging factory unless one exists; the
        creation status is ignored and whatever was written is kept. */
    method WICInitialize(created: Creation) returns (apis: seq<Api>)
      modifies this`wicFactory
      ensures old(wicFactory) != Null ==> wicFactory == old(wicFactory) && apis == []
      ensures old(wicFactory) == Null ==> wicFactory == created.Written() && apis == [CoCreateInstance]
    {
      apis := [];
      if wicFactory != Null {
        return;
      }
      apis := [CoCreateInstance];
      wicFactory := created.Written();
    }

    /** WICUnInitialize: releases the imaging factory if present; always ends null. */
    method WICUnInitialize() returns (released: seq<Handle>)
      modifies this`wicFactory
      ensures wicFactory == Null
      ensures released == Holding(old(wicFactory), ImagingFactory)
    {
      released := Holding(wicFactory, ImagingFactory);
      wicFactory := Null;
    }
  }
}
