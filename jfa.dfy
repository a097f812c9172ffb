/**
 * `drawSDF` (src/SDFGenerator.ts, identical in src/getSDF.ts): one Jump Flooding pass over
 * two ping-pong render targets. A seed draw copies the source texture into the first
 * target; then one jump draw per exponent P, P-1, ..., 0, each reading the target the
 * previous draw wrote and writing the other one; finally the target that was not written
 * last is deleted and the other one returned.
 *
 * The schedule is specified by `Passes` (what each draw writes, and the draw call's
 * uniforms at that draw) and `Run` (the commands the whole pass issues); `DrawSdf` is the
 * loop, proved to issue exactly `Run`.
 */
module JumpFlood {
  import opened Gpu
  import opened Utils

  function Pow2(k: nat): (r: nat)
    ensures r >= 1
  {
    if k == 0 then 1 else 2 * Pow2(k - 1)
  }

  lemma {:induction false} Pow2Monotone(i: nat, j: nat)
    requires i <= j
    ensures Pow2(i) <= Pow2(j)
  {
    if i < j {
      Pow2Monotone(i, j - 1);
    }
  }

  /**
   * `Math.ceil(Math.log2(spread))` without floating point: the least k >= 0 such that
   * 2^k >= spread. It is the exponent of the first (longest) jump.
   */
  function PassPower(spread: real): (k: nat)
    ensures spread <= Pow2(k) as real
    ensures k > 0 ==> (Pow2(k - 1) as real) < spread
    decreases spread.Floor
  {
    if spread <= 1.0 then 0
    else
      HalfFloorDecreases(spread);
      1 + PassPower(spread / 2.0)
  }

  lemma HalfFloorDecreases(s: real)
    requires s > 1.0
    ensures 0 <= (s / 2.0).Floor < s.Floor
  {
  }

  /** No smaller exponent reaches the spread: `PassPower` is the least one. */
  lemma PassPowerIsLeast(spread: real, k: nat)
    requires spread <= Pow2(k) as real
    ensures PassPower(spread) <= k
  {
    var p := PassPower(spread);
    if k < p {
      Pow2Monotone(k, p - 1);
    }
  }

  /** The pass counts for the spreads 1, 2, 3, 8, 9 and 100: exponents 0, 1, 2, 3, 4 and 7. */
  lemma PassPowerExamples()
    ensures PassPower(1.0) == 0 && PassPower(2.0) == 1 && PassPower(3.0) == 2
    ensures PassPower(8.0) == 3 && PassPower(9.0) == 4 && PassPower(100.0) == 7
  {
    assert Pow2(1) == 2 && Pow2(2) == 4 && Pow2(3) == 8 && Pow2(4) == 16;
    assert Pow2(6) == 64 && Pow2(7) == 128;
    PassPowerIsLeast(2.0, 1);
    PassPowerIsLeast(3.0, 2);
    PassPowerIsLeast(8.0, 3);
    PassPowerIsLeast(9.0, 4);
    PassPowerIsLeast(100.0, 7);
  }

  /** One draw of the pass: the render target written and the draw call's uniforms at that moment. */
  datatype Pass = Pass(target: RenderTarget, uniforms: Uniforms)

  /** The seed draw (phase 0) samples the source texture. */
  function SeedUniforms(u: Uniforms, texture: Handle): Uniforms {
    u["phase" := Num(0.0)]["tex" := Tex(texture)]
  }

  /** A jump draw (phase 1) with step 2^power samples the colour texture of `read`. */
  function JumpUniforms(u: Uniforms, power: nat, first: bool, read: RenderTarget): Uniforms {
    u["phase" := Num(1.0)]["jump" := Num(Pow2(power) as real)]["isFirstJump" := Bool(first)]["tex" := Tex(read.color)]
  }

  /** The jump draws for exponents `power` down to 0, the first one reading `read` and writing `write`. */
  function Jumps(u: Uniforms, read: RenderTarget, write: RenderTarget, power: nat, first: bool): (ps: seq<Pass>)
    ensures |ps| == power + 1
    decreases power
  {
    var p := Pass(write, JumpUniforms(u, power, first, read));
    if power == 0 then [p] else [p] + Jumps(p.uniforms, write, read, power - 1, false)
  }

  /** All draws of one pass over targets `a` (seeded) and `b`, with `u` the draw call's uniforms beforehand. */
  function Passes(u: Uniforms, texture: Handle, a: RenderTarget, b: RenderTarget, power: nat): (ps: seq<Pass>)
    ensures |ps| == power + 2
  {
    var seed := Pass(a, SeedUniforms(u, texture));
    [seed] + Jumps(seed.uniforms, a, b, power, true)
  }

  /** The target the last of the power + 1 jumps writes (the first jump writes `b`). */
  function Output(a: RenderTarget, b: RenderTarget, power: nat): RenderTarget {
    if power % 2 == 0 then b else a
  }

  /** The other target, deleted at the end. */
  function Spare(a: RenderTarget, b: RenderTarget, power: nat): RenderTarget {
    if power % 2 == 0 then a else b
  }

  /** The commands a sequence of draws issues: bind-and-clear its target, then draw. */
  function Events(dc: Handle, ps: seq<Pass>): (es: seq<Event>)
    ensures |es| == 2 * |ps|
  {
    if ps == [] then []
    else [Cleared(Offscreen(ps[0].target.framebuffer)), Drew(dc, Offscreen(ps[0].target.framebuffer), ps[0].uniforms)]
         + Events(dc, ps[1..])
  }

  /** What one `drawSDF` call does, seen from outside. */
  datatype Run = Run(events: seq<Event>, uniforms: Uniforms, output: RenderTarget, spare: RenderTarget)

  /**
   * `drawSDF(app, dc, texture, spread, isPositive)` with `u` the draw call's uniforms on
   * entry, `base` the first free handle and `power` = `PassPower(spread)`: the two render
   * targets get handles base..base+3; the result says which commands are issued, the
   * draw call's uniforms afterwards, the target returned and the target deleted.
   */
  function JfaRun(dc: Handle, u: Uniforms, texture: Handle, isPositive: bool, base: Handle, power: nat): (r: Run)
    ensures r.output != r.spare
    ensures r.output in {RenderTargetAt(base), RenderTargetAt(base + 2)}
    ensures r.spare in {RenderTargetAt(base), RenderTargetAt(base + 2)}
  {
    var a, b := RenderTargetAt(base), RenderTargetAt(base + 2);
    var ps := Remaining(u["isPositive" := Bool(isPositive)], texture, a, b, power, 0, true);
    Run(Events(dc, ps) + [Deleted(Spare(a, b, power).framebuffer)], ps[|ps| - 1].uniforms,
        Output(a, b, power), Spare(a, b, power))
  }

  /** The keys a pass writes; every other uniform of the draw call is left alone. */
  predicate PassKey(key: string) {
    key == "phase" || key == "jump" || key == "isFirstJump" || key == "tex"
  }

  /**
   * Jump `j` (counting from 0) of `Jumps(u, read, write, power, first)`: it writes `write`
   * when j is even and `read` when j is odd, samples the other one, uses step 2^(power-j),
   * is flagged as the first jump only when j = 0 and `first` holds, and leaves every other
   * uniform as it was in `u`.
   */
  lemma {:induction false} JumpAt(u: Uniforms, read: RenderTarget, write: RenderTarget, power: nat, first: bool,
                                  j: nat, key: string)
    requires j <= power
    decreases j
    ensures var q := Jumps(u, read, write, power, first)[j];
            q.target == (if j % 2 == 0 then write else read)
            && "tex" in q.uniforms && q.uniforms["tex"] == Tex((if j % 2 == 0 then read else write).color)
            && "jump" in q.uniforms && q.uniforms["jump"] == Num(Pow2(power - j) as real)
            && "isFirstJump" in q.uniforms && q.uniforms["isFirstJump"] == Bool(first && j == 0)
            && "phase" in q.uniforms && q.uniforms["phase"] == Num(1.0)
            && (!PassKey(key) ==> (key in q.uniforms <==> key in u) && (key in u ==> q.uniforms[key] == u[key]))
  {
    var p := Pass(write, JumpUniforms(u, power, first, read));
    if j > 0 {
      JumpAt(p.uniforms, write, read, power - 1, false, j - 1, key);
    }
  }

  lemma {:induction false} EventsAppend(dc: Handle, ps: seq<Pass>, qs: seq<Pass>)
    ensures Events(dc, ps + qs) == Events(dc, ps) + Events(dc, qs)
  {
    if ps != [] {
      assert (ps + qs)[1..] == ps[1..] + qs;
      EventsAppend(dc, ps[1..], qs);
    } else {
      assert ps + qs == qs;
    }
  }

  /** Draw `i` is command 2i + 1, preceded by clearing its own target; no command is a deletion. */
  lemma {:induction false} EventsShape(dc: Handle, ps: seq<Pass>)
    ensures DrawCount(Events(dc, ps)) == |ps|
    ensures forall i | 0 <= i < |ps| ::
              Events(dc, ps)[2 * i] == Cleared(Offscreen(ps[i].target.framebuffer))
              && Events(dc, ps)[2 * i + 1] == Drew(dc, Offscreen(ps[i].target.framebuffer), ps[i].uniforms)
    ensures forall e | e in Events(dc, ps) :: !e.Deleted?
  {
    if ps != [] {
      EventsShape(dc, ps[1..]);
      var head := [Cleared(Offscreen(ps[0].target.framebuffer)), Drew(dc, Offscreen(ps[0].target.framebuffer), ps[0].uniforms)];
      DrawCountAppend(head, Events(dc, ps[1..]));
      assert DrawCount(head) == 1 by {
        assert head[1..][1..] == [];
      }
      forall i | 1 <= i < |ps|
        ensures Events(dc, ps)[2 * i] == Cleared(Offscreen(ps[i].target.framebuffer))
        ensures Events(dc, ps)[2 * i + 1] == Drew(dc, Offscreen(ps[i].target.framebuffer), ps[i].uniforms)
      {
        assert ps[1..][i - 1] == ps[i];
        assert Events(dc, ps)[2 * i] == Events(dc, ps[1..])[2 * (i - 1)];
        assert Events(dc, ps)[2 * i + 1] == Events(dc, ps[1..])[2 * (i - 1) + 1];
      }
    }
  }

  /**
   * The schedule of one pass: P + 2 draws. Draw 0 is the seed (phase 0) writing `a` from the
   * source texture. Draw i >= 1 is a jump (phase 1) with step 2^(P+1-i), flagged `isFirstJump`
   * exactly when i = 1; it writes `b` when i is odd and `a` when i is even, and samples the
   * other target, so it never reads what it writes. `isPositive` is the same at every draw.
   * The last draw writes `Output`.
   */
  lemma PassSchedule(u: Uniforms, texture: Handle, isPositive: bool, base: Handle, power: nat, i: nat)
    requires texture < base && i < power + 2
    ensures var a, b := RenderTargetAt(base), RenderTargetAt(base + 2);
            var q := Passes(u["isPositive" := Bool(isPositive)], texture, a, b, power)[i];
            "isPositive" in q.uniforms && q.uniforms["isPositive"] == Bool(isPositive)
            && "phase" in q.uniforms && "tex" in q.uniforms
            && (i == 0 ==> q.target == a && q.uniforms["phase"] == Num(0.0) && q.uniforms["tex"] == Tex(texture))
            && (i > 0 ==>
                  q.target == (if i % 2 == 1 then b else a)
                  && q.uniforms["tex"] == Tex((if i % 2 == 1 then a else b).color)
                  && q.uniforms["phase"] == Num(1.0)
                  && "jump" in q.uniforms && q.uniforms["jump"] == Num(Pow2(power + 1 - i) as real)
                  && "isFirstJump" in q.uniforms && q.uniforms["isFirstJump"] == Bool(i == 1))
            && q.uniforms["tex"] != Tex(q.target.color)
            && (i == power + 1 ==> q.target == Output(a, b, power))
  {
    var a, b := RenderTargetAt(base), RenderTargetAt(base + 2);
    var u1 := u["isPositive" := Bool(isPositive)];
    var seed := Pass(a, SeedUniforms(u1, texture));
    if i > 0 {
      JumpAt(seed.uniforms, a, b, power, true, i - 1, "isPositive");
      assert Passes(u1, texture, a, b, power)[i] == Jumps(seed.uniforms, a, b, power, true)[i - 1];
    }
  }

  /** Consecutive jumps halve the step, the first step is the least power of two covering the spread, and the last is 1. */
  lemma JumpsHalve(spread: real, i: nat)
    requires 1 <= i <= PassPower(spread)
    ensures var P := PassPower(spread);
            Pow2(P + 1 - i) == 2 * Pow2(P - i)
            && spread <= Pow2(P) as real && (P > 0 ==> (Pow2(P - 1) as real) < spread)
            && Pow2(P + 1 - (P + 1)) == 1
  {
  }

  /**
   * The commands of one pass: P + 2 draws (each after clearing its own target), then one
   * deletion, of the spare target's framebuffer, as the very last command. The returned
   * and the deleted target are different.
   */
  lemma RunShape(dc: Handle, u: Uniforms, texture: Handle, isPositive: bool, base: Handle, power: nat)
    ensures var r := JfaRun(dc, u, texture, isPositive, base, power);
            DrawCount(r.events) == power + 2
            && |r.events| == 2 * (power + 2) + 1
            && r.events[|r.events| - 1] == Deleted(r.spare.framebuffer)
            && (forall k | 0 <= k < |r.events| - 1 :: !r.events[k].Deleted?)
            && r.output != r.spare && r.output.framebuffer != r.spare.framebuffer
            && r.output == Passes(u["isPositive" := Bool(isPositive)], texture, RenderTargetAt(base), RenderTargetAt(base + 2), power)[power + 1].target
  {
    var a, b := RenderTargetAt(base), RenderTargetAt(base + 2);
    var ps := Passes(u["isPositive" := Bool(isPositive)], texture, a, b, power);
    assert ps == Remaining(u["isPositive" := Bool(isPositive)], texture, a, b, power, 0, true);
    var r := JfaRun(dc, u, texture, isPositive, base, power);
    EventsShape(dc, ps);
    DrawCountAppend(Events(dc, ps), [Deleted(Spare(a, b, power).framebuffer)]);
    assert DrawCount([Deleted(Spare(a, b, power).framebuffer)]) == 0;
    forall k | 0 <= k < |r.events| - 1 ensures !r.events[k].Deleted? {
      assert r.events[k] == Events(dc, ps)[k];
      assert r.events[k] in Events(dc, ps);
    }
    JumpAt(Pass(a, SeedUniforms(u["isPositive" := Bool(isPositive)], texture)).uniforms, a, b, power, true, power, "");
  }

  /**
   * A pass leaves the draw call as its last jump set it: phase 1, step 1, the pass's
   * `isPositive`, and sampling the spare target (the one the last jump read).
   */
  lemma RunUniforms(dc: Handle, u: Uniforms, texture: Handle, isPositive: bool, base: Handle, power: nat)
    requires texture < base
    ensures var r := JfaRun(dc, u, texture, isPositive, base, power);
            "isPositive" in r.uniforms && r.uniforms["isPositive"] == Bool(isPositive)
            && "phase" in r.uniforms && r.uniforms["phase"] == Num(1.0)
            && "jump" in r.uniforms && r.uniforms["jump"] == Num(1.0)
            && "tex" in r.uniforms && r.uniforms["tex"] == Tex(r.spare.color)
  {
    var a, b := RenderTargetAt(base), RenderTargetAt(base + 2);
    var u1 := u["isPositive" := Bool(isPositive)];
    assert Passes(u1, texture, a, b, power) == Remaining(u1, texture, a, b, power, 0, true);
    PassSchedule(u, texture, isPositive, base, power, power + 1);
  }

  /**
   * A pass writes only `isPositive` and the uniforms `PassKey` names: every other uniform of
   * the draw call (`useUnsignedFormat` among them) comes out as it went in.
   */
  lemma RunKeeps(dc: Handle, u: Uniforms, texture: Handle, isPositive: bool, base: Handle, power: nat, key: string)
    requires !PassKey(key) && key != "isPositive"
    ensures var r := JfaRun(dc, u, texture, isPositive, base, power);
            (key in r.uniforms <==> key in u) && (key in u ==> r.uniforms[key] == u[key])
  {
    var a, b := RenderTargetAt(base), RenderTargetAt(base + 2);
    var u1 := u["isPositive" := Bool(isPositive)];
    var seed := Pass(a, SeedUniforms(u1, texture));
    assert Passes(u1, texture, a, b, power) == Remaining(u1, texture, a, b, power, 0, true);
    JumpAt(seed.uniforms, a, b, power, true, power, key);
    assert Passes(u1, texture, a, b, power)[power + 1] == Jumps(seed.uniforms, a, b, power, true)[power];
  }

  /** The draw count and length of one pass, and its last command. */
  lemma RunDraws(dc: Handle, u: Uniforms, texture: Handle, isPositive: bool, base: Handle, power: nat)
    ensures var r := JfaRun(dc, u, texture, isPositive, base, power);
            DrawCount(r.events) == power + 2 && |r.events| == 2 * power + 5
            && r.events[|r.events| - 1] == Deleted(r.spare.framebuffer)
  {
    RunShape(dc, u, texture, isPositive, base, power);
  }

  /**
   * The seed branch of `draw()` (phase 0): sets `phase`, clears `rt` and draws the source
   * texture into it.
   */
  method DrawSeed(app: App, dc: Handle, rt: RenderTarget, texture: Handle)
    requires app.Valid() && dc in app.objects && app.objects[dc].DrawCall?
    modifies app
    ensures app.Valid()
    ensures var q := Pass(rt, SeedUniforms(old(app.objects[dc].uniforms), texture));
            app.objects == old(app.objects)[dc := old(app.objects[dc]).(uniforms := q.uniforms)]
            && app.log == old(app.log) + Events(dc, [q])
    ensures app.target == Offscreen(rt.framebuffer)
    ensures app.next == old(app.next) && app.width == old(app.width) && app.height == old(app.height)
    ensures app.lost == old(app.lost)
  {
    app.Uniform(dc, "phase", Num(0.0));
    app.DrawFramebuffer(Offscreen(rt.framebuffer));
    app.Clear();
    app.Uniform(dc, "tex", Tex(texture));
    app.Draw(dc);
  }

  /**
   * The jump branch of `draw()` (phase 1): sets `phase`, `jump` = 2^power and `isFirstJump`,
   * clears `write` and draws into it sampling `read`.
   */
  method DrawJump(app: App, dc: Handle, read: RenderTarget, write: RenderTarget, power: nat, first: bool)
    requires app.Valid() && dc in app.objects && app.objects[dc].DrawCall?
    modifies app
    ensures app.Valid()
    ensures var q := Pass(write, JumpUniforms(old(app.objects[dc].uniforms), power, first, read));
            app.objects == old(app.objects)[dc := old(app.objects[dc]).(uniforms := q.uniforms)]
            && app.log == old(app.log) + Events(dc, [q])
    ensures app.target == Offscreen(write.framebuffer)
    ensures app.next == old(app.next) && app.width == old(app.width) && app.height == old(app.height)
    ensures app.lost == old(app.lost)
  {
    app.Uniform(dc, "phase", Num(1.0));
    var jump := Pow2(power);
    app.Uniform(dc, "jump", Num(jump as real));
    app.Uniform(dc, "isFirstJump", Bool(first));
    app.DrawFramebuffer(Offscreen(write.framebuffer));
    app.Clear();
    app.Uniform(dc, "tex", Tex(read.color));
    app.Draw(dc);
  }

  /**
   * The draws still to come when `draw()` is next called with the closure's variables
   * `rt1`, `rt2`, `power`, `phase` and `isFirstJump`, and `u` the draw call's uniforms.
   */
  function Remaining(u: Uniforms, texture: Handle, rt1: RenderTarget, rt2: RenderTarget, power: int, phase: int,
                     isFirstJump: bool): seq<Pass>
  {
    if power < 0 then []
    else if phase == 0 then
      var seed := Pass(rt1, SeedUniforms(u, texture));
      [seed] + Jumps(seed.uniforms, rt1, rt2, power, isFirstJump)
    else Jumps(u, rt1, rt2, power, isFirstJump)
  }

  /**
   * One call of the closure `draw()`, up to its `rt2.delete()`: the seed draw in phase 0,
   * otherwise one jump draw followed by the swap of the targets. It performs exactly the
   * first of the remaining draws and leaves the rest; it reports `finished` (`power < 0`)
   * exactly when none are left.
   */
  method DrawOnce(app: App, dc: Handle, texture: Handle, rt1: RenderTarget, rt2: RenderTarget, power: int,
                  phase: int, isFirstJump: bool)
    returns (rt1': RenderTarget, rt2': RenderTarget, power': int, phase': int, isFirstJump': bool, finished: bool)
    requires app.Valid() && dc in app.objects && app.objects[dc].DrawCall?
    requires power >= 0 && 0 <= phase <= 1
    modifies app
    ensures app.Valid()
    ensures var rem := Remaining(old(app.objects[dc].uniforms), texture, rt1, rt2, power, phase, isFirstJump);
            rem != [] && rt1' == rem[0].target
            && Remaining(rem[0].uniforms, texture, rt1', rt2', power', phase', isFirstJump') == rem[1..]
            && (finished <==> rem[1..] == [])
            && app.log == old(app.log) + Events(dc, [rem[0]])
            && app.objects == old(app.objects)[dc := old(app.objects[dc]).(uniforms := rem[0].uniforms)]
            && app.target == Offscreen(rt1'.framebuffer)
    ensures (rt1' == rt1 && rt2' == rt2) || (rt1' == rt2 && rt2' == rt1)
    ensures 0 <= phase' <= 1 && (!finished ==> power' >= 0)
    ensures app.next == old(app.next) && app.width == old(app.width) && app.height == old(app.height)
    ensures app.lost == old(app.lost)
  {
    rt1', rt2', power', phase', isFirstJump', finished := rt1, rt2, power, phase, isFirstJump, false;
    if phase == 0 {
      DrawSeed(app, dc, rt1, texture);
      phase' := phase + 1;
    } else {
      DrawJump(app, dc, rt1, rt2, power, isFirstJump);
      isFirstJump' := false;
      rt1', rt2' := rt2, rt1;
      power' := power - 1;
      finished := power' < 0;
    }
  }

  /**
   * The `requestAnimationFrame` chain of `drawSDF`: `draw()` is called until it resolves,
   * starting in phase 0 with `isFirstJump` set. It performs exactly the remaining draws of a
   * fresh pass, deletes the framebuffer of the target not written last (the last act of
   * `draw()`) and resolves with the one written last.
   */
  method DrawLoop(app: App, dc: Handle, texture: Handle, rt1: RenderTarget, rt2: RenderTarget, power: nat)
    returns (rt: RenderTarget)
    requires app.Valid() && dc in app.objects && app.objects[dc].DrawCall?
    requires rt1.framebuffer in app.objects && rt2.framebuffer in app.objects
    requires rt1.framebuffer != dc && rt2.framebuffer != dc && rt1 != rt2
    modifies app
    ensures app.Valid()
    ensures var ps := Remaining(old(app.objects[dc].uniforms), texture, rt1, rt2, power, 0, true);
            var spare := if rt == rt1 then rt2 else rt1;
            ps != [] && rt == ps[|ps| - 1].target && (rt == rt1 || rt == rt2)
            && app.log == old(app.log) + Events(dc, ps) + [Deleted(spare.framebuffer)]
            && app.objects == old(app.objects)[dc := old(app.objects[dc]).(uniforms := ps[|ps| - 1].uniforms)]
                              - {spare.framebuffer}
            && app.target == Offscreen(rt.framebuffer)
    ensures app.next == old(app.next) && app.width == old(app.width) && app.height == old(app.height)
    ensures app.lost == old(app.lost)
  {
    var last, spare := DrawFrames(app, dc, texture, rt1, rt2, power);
    app.Delete(spare.framebuffer);
    rt := last;  // `resolve(rt1)`
  }

  /**
   * The frames of `drawSDF`'s `draw()` until `power` drops below zero: every pass of
   * `Remaining` in turn. `last` is the target of the last pass and `spare` the other one.
   */
  method DrawFrames(app: App, dc: Handle, texture: Handle, rt1: RenderTarget, rt2: RenderTarget, power: nat)
    returns (last: RenderTarget, spare: RenderTarget)
    requires app.Valid() && dc in app.objects && app.objects[dc].DrawCall?
    requires rt1 != rt2
    modifies app
    ensures app.Valid()
    ensures var ps := Remaining(old(app.objects[dc].uniforms), texture, rt1, rt2, power, 0, true);
            ps != [] && last == ps[|ps| - 1].target
            && ((last == rt1 && spare == rt2) || (last == rt2 && spare == rt1))
            && app.log == old(app.log) + Events(dc, ps)
            && app.objects == old(app.objects)[dc := old(app.objects[dc]).(uniforms := ps[|ps| - 1].uniforms)]
            && app.target == Offscreen(last.framebuffer)
    ensures app.next == old(app.next) && app.width == old(app.width) && app.height == old(app.height)
    ensures app.lost == old(app.lost)
  {
    ghost var objs := app.objects;
    ghost var ps := Remaining(objs[dc].uniforms, texture, rt1, rt2, power, 0, true);
    ghost var k := 0;  // draws done so far
    ghost var a, b := rt1, rt2;
    ghost var u := objs[dc].uniforms;
    var rt1, rt2 := rt1, rt2;

    // Variables that change over the loop
    var power: int := power;
    var phase := 0;  // 0: seed, 1: jump
    var isFirstJump := true;

    var finished := false;
    while !finished
      invariant app.Valid() && app.next == old(app.next)
      invariant app.width == old(app.width) && app.height == old(app.height) && app.lost == old(app.lost)
      invariant (rt1 == a && rt2 == b) || (rt1 == b && rt2 == a)
      invariant 0 <= phase <= 1 && (!finished ==> power >= 0)
      invariant app.objects == objs[dc := objs[dc].(uniforms := u)]
      invariant 0 <= k <= |ps| && Remaining(u, texture, rt1, rt2, power, phase, isFirstJump) == ps[k..]
      invariant finished ==> k == |ps|
      invariant k > 0 ==> rt1 == ps[k - 1].target && u == ps[k - 1].uniforms && app.target == Offscreen(rt1.framebuffer)
      invariant app.log == old(app.log) + Events(dc, ps[..k])
      decreases |ps| - k
    {
      ghost var rem := ps[k..];
      rt1, rt2, power, phase, isFirstJump, finished := DrawOnce(app, dc, texture, rt1, rt2, power, phase, isFirstJump);
      Overwrite(objs, dc, objs[dc].(uniforms := u), objs[dc].(uniforms := rem[0].uniforms));
      EventsAppend(dc, ps[..k], [ps[k]]);
      assert ps[..k + 1] == ps[..k] + [ps[k]];
      k := k + 1;
      u := ps[k - 1].uniforms;
    }
    assert ps[..k] == ps;
    last, spare := rt1, rt2;
  }


  /** The live objects after two render targets of size `width` by `height` are created from handle `n` on. */
  function WithTargets(objs: map<Handle, Object>, n: Handle, width: real, height: real): map<Handle, Object> {
    objs[n := TargetTexture(width, height)][n + 1 := Framebuffer(n)]
        [n + 2 := TargetTexture(width, height)][n + 3 := Framebuffer(n + 2)]
  }

  /**
   * The live objects after a pass of draw call `dc` over targets created from handle `base`
   * on: both targets exist, the draw call holds the run's final uniforms and the spare
   * target's framebuffer is gone.
   */
  function AfterRun(objs: map<Handle, Object>, dc: Handle, base: Handle, width: real, height: real, r: Run)
    : (m: map<Handle, Object>)
    requires dc in objs && objs[dc].DrawCall?
    requires r.spare.framebuffer != dc
    ensures dc in m && m[dc] == objs[dc].(uniforms := r.uniforms)
  {
    WithTargets(objs, base, width, height)[dc := objs[dc].(uniforms := r.uniforms)] - {r.spare.framebuffer}
  }

  /** `[createRenderTarget(app), createRenderTarget(app)]`: four fresh handles. */
  method CreateRenderTargets(app: App) returns (rt1: RenderTarget, rt2: RenderTarget)
    requires app.Valid()
    modifies app
    ensures app.Valid()
    ensures var n := old(app.next);
            rt1 == RenderTargetAt(n) && rt2 == RenderTargetAt(n + 2) && app.next == n + 4
            && app.objects == WithTargets(old(app.objects), n, app.width, app.height)
    ensures app.width == old(app.width) && app.height == old(app.height) && app.target == old(app.target)
    ensures app.log == old(app.log) && app.lost == old(app.lost)
  {
    rt1 := CreateRenderTarget(app);
    rt2 := CreateRenderTarget(app);
  }

  /**
   * `drawSDF`: two fresh render targets, `isPositive` set on the draw call, then the draw
   * loop. `spread` has been validated (>= 1) by every caller.
   */
  method DrawSdf(app: App, dc: Handle, texture: Handle, spread: real, isPositive: bool) returns (rt: RenderTarget)
    requires app.Valid() && dc in app.objects && app.objects[dc].DrawCall?
    requires spread >= 1.0
    modifies app
    ensures app.Valid()
    ensures var n := old(app.next);
            var r := JfaRun(dc, old(app.objects[dc].uniforms), texture, isPositive, n, PassPower(spread));
            app.log == old(app.log) + r.events
            && rt == r.output
            && app.next == n + 4
            && app.objects == AfterRun(old(app.objects), dc, n, app.width, app.height, r)
            && app.target == Offscreen(rt.framebuffer)
    ensures app.width == old(app.width) && app.height == old(app.height) && app.lost == old(app.lost)
  {
    ghost var n := app.next;
    var rt1, rt2 := CreateRenderTargets(app);
    assert app.objects[dc] == old(app.objects[dc]);
    var power := PassPower(spread);
    rt := FloodFrom(app, dc, texture, rt1, rt2, power, isPositive);
    LoopIsRun(dc, old(app.objects[dc].uniforms), texture, isPositive, n, power);
    ghost var r := JfaRun(dc, old(app.objects[dc].uniforms), texture, isPositive, n, power);
    ghost var ps := Remaining(old(app.objects[dc].uniforms)["isPositive" := Bool(isPositive)], texture, rt1, rt2, power, 0, true);
    AppendAssoc(old(app.log), Events(dc, ps), [Deleted(r.spare.framebuffer)]);
  }

  lemma AppendAssoc<T>(a: seq<T>, b: seq<T>, c: seq<T>)
    ensures a + b + c == a + (b + c)
  {
  }

  /** The part of `drawSDF` after the targets exist: set `isPositive`, then run the draw loop. */
  method FloodFrom(app: App, dc: Handle, texture: Handle, rt1: RenderTarget, rt2: RenderTarget, power: nat,
                   isPositive: bool)
    returns (rt: RenderTarget)
    requires app.Valid() && dc in app.objects && app.objects[dc].DrawCall?
    requires rt1.framebuffer in app.objects && rt2.framebuffer in app.objects
    requires rt1.framebuffer != dc && rt2.framebuffer != dc && rt1 != rt2
    modifies app
    ensures app.Valid()
    ensures var ps := Remaining(old(app.objects[dc].uniforms)["isPositive" := Bool(isPositive)], texture, rt1, rt2, power, 0, true);
            var spare := if rt == rt1 then rt2 else rt1;
            ps != [] && rt == ps[|ps| - 1].target
            && app.log == old(app.log) + Events(dc, ps) + [Deleted(spare.framebuffer)]
            && app.objects == old(app.objects)[dc := old(app.objects[dc]).(uniforms := ps[|ps| - 1].uniforms)]
                              - {spare.framebuffer}
            && app.target == Offscreen(rt.framebuffer)
    ensures app.next == old(app.next) && app.width == old(app.width) && app.height == old(app.height)
    ensures app.lost == old(app.lost)
  {
    ghost var objs0 := app.objects;
    ghost var u := app.objects[dc].uniforms["isPositive" := Bool(isPositive)];
    app.Uniform(dc, "isPositive", Bool(isPositive));
    rt := DrawLoop(app, dc, texture, rt1, rt2, power);
    ghost var ps := Remaining(u, texture, rt1, rt2, power, 0, true);
    Overwrite(objs0, dc, objs0[dc].(uniforms := u), objs0[dc].(uniforms := ps[|ps| - 1].uniforms));
  }

  /** The draws `DrawLoop` performs on fresh targets at `base` are those of `JfaRun`, with the same output and spare. */
  lemma LoopIsRun(dc: Handle, u: Uniforms, texture: Handle, isPositive: bool, base: Handle, power: nat)
    ensures var a, b := RenderTargetAt(base), RenderTargetAt(base + 2);
            var ps := Remaining(u["isPositive" := Bool(isPositive)], texture, a, b, power, 0, true);
            var r := JfaRun(dc, u, texture, isPositive, base, power);
            ps != [] && r.output == ps[|ps| - 1].target && r.uniforms == ps[|ps| - 1].uniforms
            && r.spare == (if r.output == a then b else a)
            && r.events == Events(dc, ps) + [Deleted(r.spare.framebuffer)]
  {
    RunShape(dc, u, texture, isPositive, base, power);
  }
}
