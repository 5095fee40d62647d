/**
 * The typewriter pacer of src/utils/fetch.ts (`createSmoothMessage`).
 *
 * The closure state becomes the fields of `SmoothMessage`. The 16 ms timer is
 * not modelled as time: `timerPending` says a callback is scheduled, and the
 * event loop firing it is the method `Tick`. The `onTextUpdate` callback is
 * modelled as the `TextUpdate` a step returns.
 */
module TextPacer {
  import opened Wrappers

  /** One `onTextUpdate(delta, text)` call: the characters just revealed and all text so far. */
  datatype TextUpdate = TextUpdate(delta: string, text: string)

  function Min(a: nat, b: nat): nat { if a <= b then a else b }

  /** All strings of `parts`, in order. */
  function Concat(parts: seq<string>): string {
    if |parts| == 0 then "" else parts[0] + Concat(parts[1..])
  }

  lemma {:induction false} ConcatAppend(a: seq<string>, b: seq<string>)
    ensures Concat(a + b) == Concat(a) + Concat(b)
  {
    if |a| == 0 {
      assert a + b == b;
    } else {
      assert (a + b)[1..] == a[1..] + b;
      ConcatAppend(a[1..], b);
    }
  }

  /**
   * How a loop running at `speed` reveals `s`: consecutive slices of `speed`
   * characters, the last one possibly shorter.
   */
  function Pieces(s: string, speed: nat): (r: seq<string>)
    requires speed > 0
    ensures |r| == 0 <==> |s| == 0
    decreases |s|
  {
    if |s| == 0 then []
    else
      var k := Min(speed, |s|);
      [s[..k]] + Pieces(s[k..], speed)
  }

  /** The slices spell the text exactly once, in order. */
  lemma {:induction false} PiecesConcat(s: string, speed: nat)
    requires speed > 0
    ensures Concat(Pieces(s, speed)) == s
    decreases |s|
  {
    if |s| > 0 {
      var k := Min(speed, |s|);
      PiecesConcat(s[k..], speed);
      assert s == s[..k] + s[k..];
    }
  }

  /** No slice is empty and none is longer than the speed. */
  lemma {:induction false} PiecesBounded(s: string, speed: nat)
    requires speed > 0
    ensures forall i | 0 <= i < |Pieces(s, speed)| :: 0 < |Pieces(s, speed)[i]| <= speed
    decreases |s|
  {
    if |s| > 0 {
      var k := Min(speed, |s|);
      PiecesBounded(s[k..], speed);
    }
  }

  /** A non-empty text reveals its first slice, then the rest. */
  lemma PiecesStep(s: string, speed: nat)
    requires speed > 0 && |s| > 0
    ensures Pieces(s, speed) == [s[..Min(speed, |s|)]] + Pieces(s[Min(speed, |s|)..], speed)
  {
  }

  /** One more slice revealed: what was revealed plus what is left still spells the whole. */
  lemma RevealStep(revealed: seq<string>, q: string, speed: nat)
    requires speed > 0 && |q| > 0
    ensures revealed + [q[..Min(speed, |q|)]] + Pieces(q[Min(speed, |q|)..], speed) == revealed + Pieces(q, speed)
  {
    PiecesStep(q, speed);
  }

  /** The deltas of a run of updates. */
  function Deltas(updates: seq<TextUpdate>): seq<string> {
    seq(|updates|, i requires 0 <= i < |updates| => updates[i].delta)
  }

  lemma DeltasSnoc(updates: seq<TextUpdate>, u: TextUpdate)
    ensures Deltas(updates + [u]) == Deltas(updates) + [u.delta]
  {
  }

  class SmoothMessage {
    /** Text revealed so far. */
    var buffer: string
    /** Characters pushed but not yet revealed. */
    var outputQueue: string
    var isAnimationActive: bool
    /** `animationTimeoutId !== null`: an `updateText` callback is scheduled. */
    var timerPending: bool
    /** The speed captured by the running loop's `updateText` closure. */
    var speed: nat
    /** The promise of the loop that last started has not been resolved yet. */
    var loopPromisePending: bool
    /**
     * The `isAnimationActive` member of the returned object: a copy of the
     * flag taken when the pacer was created, so always false.
     */
    const exposedIsAnimationActive: bool
    /** Everything pushed so far, in order. */
    ghost var pushed: string

    ghost predicate Valid()
      reads this
    {
      && buffer + outputQueue == pushed
      && (timerPending <==> isAnimationActive)
      && (isAnimationActive ==> loopPromisePending && speed > 0)
      && !exposedIsAnimationActive
    }

    constructor ()
      ensures Valid()
      ensures buffer == "" && outputQueue == "" && pushed == ""
      ensures !isAnimationActive && !timerPending && !loopPromisePending
      ensures exposedIsAnimationActive == false
    {
      buffer := "";
      outputQueue := "";
      isAnimationActive := false;
      timerPending := false;
      speed := 1;
      loopPromisePending := false;
      exposedIsAnimationActive := false;
      pushed := "";
    }

    /** `isTokenRemain`: characters are still waiting to be revealed. */
    predicate IsTokenRemain()
      reads this
      ensures IsTokenRemain() <==> |outputQueue| > 0
    {
      |outputQueue| > 0
    }

    /** `stopAnimation`: clears the flag and cancels the scheduled callback; the text is kept. */
    method StopAnimation()
      requires Valid()
      modifies this
      ensures Valid()
      ensures !isAnimationActive && !timerPending
      ensures buffer == old(buffer) && outputQueue == old(outputQueue) && pushed == old(pushed)
      ensures speed == old(speed) && loopPromisePending == old(loopPromisePending)
    {
      isAnimationActive := false;
      if timerPending {
        timerPending := false;
      }
    }

    /** `pushToQueue`: every character of `text` joins the end of the queue; nothing is revealed. */
    method PushToQueue(text: string)
      requires Valid()
      modifies this
      ensures Valid()
      ensures outputQueue == old(outputQueue) + text
      ensures pushed == old(pushed) + text
      ensures buffer == old(buffer) && isAnimationActive == old(isAnimationActive)
      ensures timerPending == old(timerPending) && speed == old(speed)
      ensures loopPromisePending == old(loopPromisePending)
    {
      outputQueue := outputQueue + text;
      pushed := pushed + text;
    }

    /**
     * `updateText`, as written: when the flag is off it cancels the timer and
     * resolves, and then, having no `return`, goes on to the queue check.
     */
    method UpdateText() returns (update: Option<TextUpdate>)
      modifies this
      ensures pushed == old(pushed) && speed == old(speed)
      ensures old(|outputQueue|) > 0 ==>
                var k := Min(speed, old(|outputQueue|));
                && outputQueue == old(outputQueue)[k..]
                && buffer == old(buffer) + old(outputQueue)[..k]
                && update == Some(TextUpdate(old(outputQueue)[..k], buffer))
                && timerPending
                && isAnimationActive == old(isAnimationActive)
                && loopPromisePending == (old(isAnimationActive) && old(loopPromisePending))
      ensures old(|outputQueue|) == 0 ==>
                && outputQueue == old(outputQueue) && buffer == old(buffer) && update == None
                && !isAnimationActive && !timerPending && !loopPromisePending
    {
      if !isAnimationActive {
        timerPending := false;
        loopPromisePending := false;
      }
      if |outputQueue| > 0 {
        var k := Min(speed, |outputQueue|);
        var charsToAdd := outputQueue[..k];
        outputQueue := outputQueue[k..];
        buffer := buffer + charsToAdd;
        update := Some(TextUpdate(charsToAdd, buffer));
        timerPending := true;
      } else {
        isAnimationActive := false;
        timerPending := false;
        loopPromisePending := false;
        update := None;
      }
    }

    /**
     * `startAnimation(speed)`. When a loop is already running the returned
     * promise is resolved at once and nothing changes. Otherwise a loop at
     * `loopSpeed` starts and runs its first step immediately; `resolved` says
     * whether that step already finished the loop.
     */
    method StartAnimation(loopSpeed: nat) returns (resolved: bool, update: Option<TextUpdate>)
      requires Valid()
      requires loopSpeed > 0
      modifies this
      ensures Valid()
      ensures pushed == old(pushed)
      ensures old(isAnimationActive) ==>
                && resolved && update == None
                && buffer == old(buffer) && outputQueue == old(outputQueue)
                && isAnimationActive && timerPending && speed == old(speed)
                && loopPromisePending == old(loopPromisePending)
      ensures !old(isAnimationActive) ==> speed == loopSpeed
      ensures !old(isAnimationActive) && old(|outputQueue|) > 0 ==>
                var k := Min(loopSpeed, old(|outputQueue|));
                && outputQueue == old(outputQueue)[k..]
                && buffer == old(buffer) + old(outputQueue)[..k]
                && update == Some(TextUpdate(old(outputQueue)[..k], buffer))
                && !resolved && isAnimationActive && timerPending && loopPromisePending
      ensures !old(isAnimationActive) && old(|outputQueue|) == 0 ==>
                && resolved && update == None
                && buffer == old(buffer) && outputQueue == old(outputQueue)
                && !isAnimationActive && !timerPending && !loopPromisePending
    {
      if isAnimationActive {
        resolved, update := true, None;
        return;
      }
      isAnimationActive := true;
      speed := loopSpeed;
      loopPromisePending := true;
      update := UpdateText();
      resolved := !loopPromisePending;
    }

    /**
     * The scheduled callback fires. A non-empty queue loses its first
     * `min(speed, |queue|)` characters to the end of the buffer, reported as
     * `(delta, buffer)`; an empty queue ends the loop and resolves its promise.
     */
    method Tick() returns (update: Option<TextUpdate>)
      requires Valid()
      requires timerPending
      modifies this
      ensures Valid()
      ensures pushed == old(pushed) && speed == old(speed)
      ensures old(|outputQueue|) > 0 ==>
                var k := Min(speed, old(|outputQueue|));
                && outputQueue == old(outputQueue)[k..]
                && buffer == old(buffer) + old(outputQueue)[..k]
                && update == Some(TextUpdate(old(outputQueue)[..k], buffer))
                && isAnimationActive && timerPending && loopPromisePending
      ensures old(|outputQueue|) == 0 ==>
                && outputQueue == "" && buffer == old(buffer) && update == None
                && !isAnimationActive && !timerPending && !loopPromisePending
    {
      update := UpdateText();
    }
  }

  /**
   * The timer keeps firing until the running loop's promise resolves; each
   * firing reveals the next slice of the queue.
   */
  method TickUntilResolved(pacer: SmoothMessage) returns (updates: seq<TextUpdate>)
    requires pacer.Valid()
    requires pacer.loopPromisePending <==> pacer.isAnimationActive
    requires !pacer.isAnimationActive ==> pacer.outputQueue == ""
    modifies pacer
    ensures pacer.Valid() && !pacer.isAnimationActive && !pacer.loopPromisePending
    ensures pacer.outputQueue == ""
    ensures pacer.buffer == old(pacer.buffer) + old(pacer.outputQueue)
    ensures pacer.pushed == old(pacer.pushed) && pacer.speed == old(pacer.speed)
    ensures old(pacer.isAnimationActive) ==> Deltas(updates) == Pieces(old(pacer.outputQueue), pacer.speed)
    ensures !old(pacer.isAnimationActive) ==> updates == []
    ensures |updates| > 0 ==> updates[|updates| - 1].text == pacer.buffer
  {
    updates := [];
    ghost var queue0 := pacer.outputQueue;
    while pacer.loopPromisePending
      invariant pacer.Valid() && pacer.speed == old(pacer.speed)
      invariant pacer.loopPromisePending <==> pacer.isAnimationActive
      invariant !pacer.loopPromisePending ==> pacer.outputQueue == ""
      invariant pacer.pushed == old(pacer.pushed)
      invariant pacer.isAnimationActive ==> Deltas(updates) + Pieces(pacer.outputQueue, pacer.speed) == Pieces(queue0, pacer.speed)
      invariant !old(pacer.isAnimationActive) ==> updates == []
      invariant old(pacer.isAnimationActive) && !pacer.isAnimationActive ==> Deltas(updates) == Pieces(queue0, pacer.speed)
      invariant |updates| > 0 ==> updates[|updates| - 1].text == pacer.buffer
      decreases |pacer.outputQueue| + (if pacer.timerPending then 1 else 0)
    {
      ghost var q := pacer.outputQueue;
      var u := pacer.Tick();
      if u.Some? {
        RevealStep(Deltas(updates), q, pacer.speed);
        DeltasSnoc(updates, u.value);
        updates := updates + [u.value];
      }
    }
  }

  /**
   * `await startAnimation(speed)` on a stopped pacer: start a loop and let the
   * timer fire until the loop's promise resolves. The updates reveal the queue
   * in slices of `speed` characters and leave it empty.
   */
  method AwaitStartAnimation(pacer: SmoothMessage, speed: nat) returns (updates: seq<TextUpdate>)
    requires pacer.Valid() && !pacer.isAnimationActive
    requires speed > 0
    modifies pacer
    ensures pacer.Valid() && !pacer.isAnimationActive && !pacer.loopPromisePending
    ensures pacer.outputQueue == ""
    ensures pacer.buffer == old(pacer.buffer) + old(pacer.outputQueue)
    ensures pacer.pushed == old(pacer.pushed)
    ensures Deltas(updates) == Pieces(old(pacer.outputQueue), speed)
    ensures |updates| > 0 ==> updates[|updates| - 1].text == pacer.buffer
  {
    ghost var queue0 := pacer.outputQueue;
    var resolved, first := pacer.StartAnimation(speed);
    var rest := TickUntilResolved(pacer);
    if first.Some? {
      PiecesStep(queue0, speed);
      updates := [first.value] + rest;
      assert Deltas(updates) == [first.value.delta] + Deltas(rest);
    } else {
      updates := rest;
    }
  }
}
