/** Construction of a counted loop around existing body blocks. */
module LoopBuilding {
  import opened IR

  datatype LoopDirection = Increasing | Decreasing

  function Direction(start: uint32, end: uint32): LoopDirection {
    if start > end then Decreasing else Increasing
  }

  /** Where the blocks of a loop are and what its bounds are. */
  datatype Loop = Loop(hdr: Label, latch: Label, exit: Label,
                       entry: Label, preheader: Label, postexit: Label,
                       start: uint32, end: uint32, step: uint32)
  {
    function Ind(): Operand { Inst(hdr, 0) }

    function HeaderBlock(): Block {
      [ Phi([Incoming(Const(start), preheader), Incoming(Inst(latch, 0), latch)]),
        ICmp(if Direction(start, end).Decreasing? then Sge else Slt, Ind(), Const(end)),
        CondBr(Inst(hdr, 1), entry, exit) ]
    }

    function LatchBlock(): Block {
      [ if Direction(start, end).Decreasing? then Sub(Ind(), Const(step)) else Add(Ind(), Const(step)),
        Br(hdr) ]
    }

    function ExitBlock(): Block {
      [ Br(postexit) ]
    }
  }

  /** Every unterminated block of `body`, repeated in the list or not, branches to `latch` once;
      no other block changes. */
  function Wired(bs: Cfg, body: seq<Label>, latch: Label): (r: Cfg)
    ensures |r| == |bs|
  {
    seq(|bs|, l requires 0 <= l < |bs| =>
      if l in body && !Terminated(bs[l]) then bs[l] + [Br(latch)] else bs[l])
  }

  function NewLoop(bs: Cfg, body: seq<Label>, pre: Label, post: Label, start: uint32, end: uint32, step: uint32): Loop
    requires |body| > 0
  {
    Loop(|bs|, |bs| + 1, |bs| + 2, body[0], pre, post, start, end, step)
  }

  /** The function once a loop has been built in it: the old blocks with the body wired to the
      latch and the preheader to the header, then header, latch and exit. */
  function WithLoop(bs: Cfg, body: seq<Label>, pre: Label, post: Label, start: uint32, end: uint32, step: uint32)
    : (r: Cfg)
    requires |body| > 0 && pre < |bs|
    ensures |r| == |bs| + 3
  {
    var loop := NewLoop(bs, body, pre, post, start, end, step);
    Append(Wired(bs, body, loop.latch), pre, [Br(loop.hdr)])
    + [loop.HeaderBlock(), loop.LatchBlock(), loop.ExitBlock()]
  }

  /** Wiring, then the branches into the header and out of the exit, complete the loop. */
  lemma {:induction false} LinkedLoop(bs: Cfg, body: seq<Label>, pre: Label, post: Label,
                                      start: uint32, end: uint32, step: uint32)
    requires |body| > 0 && pre < |bs| && forall l | l in body :: l < |bs|
    ensures var loop := NewLoop(bs, body, pre, post, start, end, step);
            var wired := Wired(bs + [loop.HeaderBlock(), loop.LatchBlock(), []], body, loop.latch);
            Append(Append(wired, pre, [Br(loop.hdr)]), loop.exit, [Br(post)]) ==
            WithLoop(bs, body, pre, post, start, end, step)
  {
    hide Loop.HeaderBlock, Loop.LatchBlock;
    var loop := NewLoop(bs, body, pre, post, start, end, step);
    var rest := [loop.HeaderBlock(), loop.LatchBlock(), []];
    var wired := Wired(bs + rest, body, loop.latch);
    assert wired == Wired(bs, body, loop.latch) + rest;
    var entered := Append(Wired(bs, body, loop.latch), pre, [Br(loop.hdr)]);
    assert Append(wired, pre, [Br(loop.hdr)]) == entered + rest;
    assert [] + [Br(post)] == loop.ExitBlock();
  }

  class LoopIRBuilder {
    constructor () {}

    /** Builds the loop: header and latch, then the edges from the body, into the header and out
        of the exit. */
    method CreateLoop(f: Function, body: seq<Label>, preheader: Label, postexit: Label,
                      start: uint32, end: uint32, step: uint32)
      returns (ind: Operand)
      requires |body| > 0
      requires start != end
      requires preheader < |f.blocks| && postexit < |f.blocks|
      requires forall l | l in body :: l < |f.blocks|
      modifies f
      ensures f.blocks == WithLoop(old(f.blocks), body, preheader, postexit, start, end, step)
      ensures ind == NewLoop(old(f.blocks), body, preheader, postexit, start, end, step).Ind()
      ensures var hdr := f.blocks[ind.block];
              |hdr| == 3 && hdr[2].CondBr? && hdr[2].ifTrue == body[0]
    {
      hide Wired, Append;
      ghost var bs := f.blocks;
      ghost var loop := NewLoop(bs, body, preheader, postexit, start, end, step);

      var hdr := f.CreateBlock();
      var latch := f.CreateBlock();
      var exit := f.CreateBlock();
      assert f.blocks == bs + [[], [], []];

      var builder := new IRBuilder(f, hdr);
      ind := BuildControl(f, builder, loop, bs, hdr, latch, exit, body[0], preheader, start, end, step);
      WireBody(f, builder, body, latch);
      LinkedLoop(bs, body, preheader, postexit, start, end, step);

      // preheader to header, exit to postexit
      builder.SetInsertPoint(preheader);
      var _ := builder.Create(Br(hdr));
      builder.SetInsertPoint(exit);
      var _ := builder.Create(Br(postexit));
    }

    /** Fills header and latch: induction variable and loop condition, step and back edge, and
        last the two inputs of the induction variable. */
    method BuildControl(f: Function, builder: IRBuilder, ghost loop: Loop, ghost bs: Cfg,
                        hdr: Label, latch: Label, exit: Label, entry: Label, preheader: Label,
                        start: uint32, end: uint32, step: uint32)
      returns (ind: Operand)
      requires builder.func == f && builder.block == hdr && builder.after == 0
      requires loop.hdr == hdr == |bs| && loop.latch == latch == |bs| + 1 && loop.exit == exit == |bs| + 2
      requires loop.entry == entry && loop.preheader == preheader
      requires loop.start == start && loop.end == end && loop.step == step
      requires f.blocks == bs + [[], [], []]
      modifies f, builder
      ensures builder.func == f
      ensures f.blocks == bs + [loop.HeaderBlock(), loop.LatchBlock(), []]
      ensures ind == loop.Ind()
    {
      var direction := Increasing;
      if start > end {
        direction := Decreasing;
      }

      ind := builder.Create(Phi([]));
      var test := match direction
                  case Increasing => ICmp(Slt, ind, Const(end))
                  case Decreasing => ICmp(Sge, ind, Const(end));
      var cond := builder.Create(test);
      var _ := builder.Create(CondBr(cond, entry, exit));
      assert f.blocks[hdr] == [Phi([])] + loop.HeaderBlock()[1..];
      ghost var open := f.blocks[hdr];
      assert f.blocks == bs + [open, [], []];

      builder.SetInsertPoint(latch);
      var advance := match direction
                     case Increasing => Add(ind, Const(step))
                     case Decreasing => Sub(ind, Const(step));
      var next := builder.Create(advance);
      var _ := builder.Create(Br(hdr));
      assert f.blocks[latch] == loop.LatchBlock();
      assert f.blocks == bs + [open, loop.LatchBlock(), []];

      f.AddIncoming(ind, Const(start), preheader);
      f.AddIncoming(ind, next, latch);
      assert f.blocks[hdr][0].incoming == loop.HeaderBlock()[0].incoming;
      assert f.blocks[hdr] == loop.HeaderBlock();
      assert f.blocks == bs + [f.blocks[hdr], loop.LatchBlock(), []];
    }

    /** Directs all unterminated body blocks to the latch. */
    method WireBody(f: Function, builder: IRBuilder, body: seq<Label>, latch: Label)
      requires builder.func == f
      requires forall l | l in body :: l < |f.blocks|
      modifies f, builder
      ensures builder.func == f
      ensures f.blocks == Wired(old(f.blocks), body, latch)
    {
      for n := 0 to |body|
        invariant builder.func == f
        invariant f.blocks == Wired(old(f.blocks), body[..n], latch)
      {
        var e := body[n];
        assert e in body;
        assert body[..n + 1] == body[..n] + [e];
        if !Terminated(f.blocks[e]) {
          builder.SetInsertPoint(e);
          var _ := builder.Create(Br(latch));
        }
      }
      assert body[..|body|] == body;
    }
  }
}
