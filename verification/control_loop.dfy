/**
 The camera control loop (`display_feed`).

 Each pass reads one frame, shows it and polls one key. ESC ends the loop,
 SPACE classifies the frame just read, shows the result and dispatches its
 category when the confidence reaches the threshold. A failed read ends the
 loop too. On both of those exits the capture and the windows are released.

 The camera is a finite sequence of ticks; a read past its end fails, as it
 does at the end of a video stream. The classifier is a parameter: `None`
 stands for a call that raised, which propagates out of the loop and so
 skips the release.
 */
module ControlLoop {
  import opened Wrappers
  import opened Normalization
  import opened Dispatch

  const EscKey: int := 27
  const SpaceKey: int := 32

  /** The confidence a classification needs before its category is dispatched. */
  const Threshold: real := 0.85

  type Confidence = c: real | 0.0 <= c <= 1.0

  /** What the classifier returns: its top category and that category's probability. */
  datatype Classification = Classification(category: string, confidence: Confidence)

  /** One pass of the loop: the frame `cap.read()` gave (`None` when it failed) and the key the `cv2.waitKey(1)` poll after it reported. */
  datatype Tick<F> = Tick(frame: Option<F>, key: int)

  datatype StopReason = ReadFailed | ExitKey | ClassifierRaised

  /**
   Where the loop left off: the link afterwards, the classifications shown to
   the operator in order, and the index of the tick at which it stopped
   (the length of the stream when the stream ran out).
   */
  datatype LoopEnd = LoopEnd(channel: Channel, shown: seq<Classification>, stopAt: nat, reason: StopReason)

  /** What `display_feed` leaves behind, including whether the capture and windows were released. */
  datatype FeedEnd = FeedEnd(channel: Channel, shown: seq<Classification>, stopAt: nat, reason: StopReason, released: bool)

  /** The confidence gate. */
  predicate Dispatches(c: Classification) {
    c.confidence >= Threshold
  }

  /** A tick after which the loop goes round again. */
  predicate Proceeds<F>(t: Tick<F>, classify: F -> Option<Classification>) {
    && t.frame.Some?
    && t.key != EscKey
    && (t.key == SpaceKey ==> classify(t.frame.value).Some?)
  }

  /** The classification a tick shows: its frame's, when the tick is a SPACE press and the classifier returns. */
  function ShownAt<F>(t: Tick<F>, classify: F -> Option<Classification>): (r: seq<Classification>)
    ensures |r| <= 1
  {
    if t.frame.Some? && t.key == SpaceKey && classify(t.frame.value).Some?
    then [classify(t.frame.value).value] else []
  }

  /** The classifications the SPACE ticks among `ticks` ask for, in order. */
  function Requested<F>(ticks: seq<Tick<F>>, classify: F -> Option<Classification>): seq<Classification> {
    if |ticks| == 0 then [] else ShownAt(ticks[0], classify) + Requested(ticks[1..], classify)
  }

  /** The link after the gate has seen `c`: dispatched when the confidence reaches the threshold. */
  function Gate(ch: Channel, c: Classification): (r: Channel)
    ensures !Dispatches(c) ==> r == ch
    ensures Dispatches(c) ==> r == Deliver(ch, CommandsFor(c.category))
  {
    if Dispatches(c) then Send(ch, c.category) else ch
  }

  /** The command bytes one shown classification sends: gated, then looked up. */
  function SentFor(c: Classification): (r: seq<char>)
    ensures |r| <= 1
  {
    if Dispatches(c) then CommandsFor(c.category) else []
  }

  /** The command bytes a run of shown classifications sends, in order. */
  function Commands(shown: seq<Classification>): seq<char> {
    if |shown| == 0 then [] else SentFor(shown[0]) + Commands(shown[1..])
  }

  /** How many of `ticks` carry the SPACE key. */
  function SpaceTicks<F>(ticks: seq<Tick<F>>): nat {
    if |ticks| == 0 then 0
    else (if ticks[0].key == SpaceKey then 1 else 0) + SpaceTicks(ticks[1..])
  }

  /** How many of `shown` clear the confidence gate. */
  function Gated(shown: seq<Classification>): nat {
    if |shown| == 0 then 0
    else (if Dispatches(shown[0]) then 1 else 0) + Gated(shown[1..])
  }

  lemma DeliverTwice(ch: Channel, a: seq<char>, b: seq<char>)
    ensures Deliver(Deliver(ch, a), b) == Deliver(ch, a + b)
  {
    if ch.Connected? {
      assert ch.log + a + b == ch.log + (a + b);
    }
  }

  /**
   The `while True` loop of `display_feed`, one tick per call. It stops at
   the first tick that does not proceed, and says why it stopped.
   */
  function Loop<F>(ticks: seq<Tick<F>>, classify: F -> Option<Classification>, ch: Channel): (r: LoopEnd)
    decreases |ticks|
    ensures r.stopAt <= |ticks|
    ensures forall i :: 0 <= i < r.stopAt ==> Proceeds(ticks[i], classify)
    ensures r.stopAt < |ticks| ==> !Proceeds(ticks[r.stopAt], classify)
    ensures r.reason == ReadFailed <==> r.stopAt == |ticks| || ticks[r.stopAt].frame.None?
    ensures r.reason == ExitKey <==>
              r.stopAt < |ticks| && ticks[r.stopAt].frame.Some? && ticks[r.stopAt].key == EscKey
  {
    if |ticks| == 0 then LoopEnd(ch, [], 0, ReadFailed)
    else
      var t := ticks[0];
      match t.frame
      case None => LoopEnd(ch, [], 0, ReadFailed)
      case Some(frame) =>
        if t.key == EscKey then LoopEnd(ch, [], 0, ExitKey)
        else if t.key == SpaceKey then
          match classify(frame)
          case None => LoopEnd(ch, [], 0, ClassifierRaised)
          case Some(c) =>
            var rest := Loop(ticks[1..], classify, Gate(ch, c));
            LoopEnd(rest.channel, [c] + rest.shown, rest.stopAt + 1, rest.reason)
        else
          var rest := Loop(ticks[1..], classify, ch);
          LoopEnd(rest.channel, rest.shown, rest.stopAt + 1, rest.reason)
  }

  /** The link a tick that proceeds leaves behind. */
  function LinkAfter<F>(t: Tick<F>, classify: F -> Option<Classification>, ch: Channel): Channel {
    if ShownAt(t, classify) == [] then ch else Gate(ch, ShownAt(t, classify)[0])
  }

  /** Moves a later part of the run back into the whole: `n` ticks and `before` shown earlier. */
  function Shift(n: nat, before: seq<Classification>, r: LoopEnd): LoopEnd {
    LoopEnd(r.channel, before + r.shown, n + r.stopAt, r.reason)
  }

  lemma ShiftTwice(m: nat, a: seq<Classification>, n: nat, b: seq<Classification>, r: LoopEnd)
    ensures Shift(m, a, Shift(n, b, r)) == Shift(m + n, a + b, r)
  {
    assert a + (b + r.shown) == a + b + r.shown;
  }

  /** One pass of the loop over a tick that proceeds. */
  lemma LoopUnfold<F>(ticks: seq<Tick<F>>, classify: F -> Option<Classification>, ch: Channel)
    requires |ticks| > 0 && Proceeds(ticks[0], classify)
    ensures Loop(ticks, classify, ch) ==
            Shift(1, ShownAt(ticks[0], classify), Loop(ticks[1..], classify, LinkAfter(ticks[0], classify, ch)))
  {
  }

  /** Everything the loop shows comes from the SPACE ticks it processed. */
  lemma {:induction false} LoopShown<F>(ticks: seq<Tick<F>>, classify: F -> Option<Classification>, ch: Channel)
    decreases |ticks|
    ensures Loop(ticks, classify, ch).shown == Requested(ticks[..Loop(ticks, classify, ch).stopAt], classify)
  {
    if |ticks| > 0 && Proceeds(ticks[0], classify) {
      var ch' := LinkAfter(ticks[0], classify, ch);
      var k := Loop(ticks[1..], classify, ch').stopAt;
      LoopUnfold(ticks, classify, ch);
      LoopShown(ticks[1..], classify, ch');
      assert ticks[..k + 1][1..] == ticks[1..][..k];
    }
  }

  /** Exactly the gated classifications reach the link, in the order they were shown. */
  lemma {:induction false} LoopChannel<F>(ticks: seq<Tick<F>>, classify: F -> Option<Classification>, ch: Channel)
    decreases |ticks|
    ensures Loop(ticks, classify, ch).channel == Deliver(ch, Commands(Loop(ticks, classify, ch).shown))
  {
    if |ticks| > 0 && Proceeds(ticks[0], classify) {
      var here := ShownAt(ticks[0], classify);
      var ch' := LinkAfter(ticks[0], classify, ch);
      var rest := Loop(ticks[1..], classify, ch');
      LoopUnfold(ticks, classify, ch);
      LoopChannel(ticks[1..], classify, ch');
      CommandsConcat(here, rest.shown);
      if here == [] {
        assert ch' == Deliver(ch, Commands(here));
      } else {
        var c := here[0];
        SendIsDeliver(ch, c.category);
        assert ch' == Deliver(ch, Commands(here));
      }
      DeliverTwice(ch, Commands(here), Commands(rest.shown));
    }
  }

  lemma {:induction false} CommandsConcat(a: seq<Classification>, b: seq<Classification>)
    ensures Commands(a + b) == Commands(a) + Commands(b)
  {
    if |a| == 0 {
      assert a + b == b;
    } else {
      assert (a + b)[0] == a[0];
      assert (a + b)[1..] == a[1..] + b;
      CommandsConcat(a[1..], b);
      assert SentFor(a[0]) + (Commands(a[1..]) + Commands(b)) == SentFor(a[0]) + Commands(a[1..]) + Commands(b);
    }
  }

  /** Once the loop has stopped, later ticks make no difference: nothing after the stop is read or classified. */
  lemma {:induction false} LoopIgnoresAfterStop<F>(ticks: seq<Tick<F>>, extra: seq<Tick<F>>,
                                                  classify: F -> Option<Classification>, ch: Channel)
    requires Loop(ticks, classify, ch).stopAt < |ticks|
    decreases |ticks|
    ensures Loop(ticks + extra, classify, ch) == Loop(ticks, classify, ch)
  {
    assert (ticks + extra)[0] == ticks[0];
    if Proceeds(ticks[0], classify) {
      var ch' := LinkAfter(ticks[0], classify, ch);
      assert (ticks + extra)[1..] == ticks[1..] + extra;
      LoopUnfold(ticks, classify, ch);
      LoopUnfold(ticks + extra, classify, ch);
      LoopIgnoresAfterStop(ticks[1..], extra, classify, ch');
    }
  }

  lemma {:induction false} CommandsBounded(shown: seq<Classification>)
    ensures |Commands(shown)| <= Gated(shown) <= |shown|
    ensures forall i :: 0 <= i < |Commands(shown)| ==> IsCommandByte(Commands(shown)[i])
  {
    if |shown| > 0 {
      CommandsBounded(shown[1..]);
      if |SentFor(shown[0])| == 1 {
        CommandForAlphabet(Normalize(shown[0].category));
      }
    }
  }

  lemma {:induction false} RequestedBounded<F>(ticks: seq<Tick<F>>, classify: F -> Option<Classification>)
    ensures |Requested(ticks, classify)| <= SpaceTicks(ticks)
  {
    if |ticks| > 0 {
      RequestedBounded(ticks[1..], classify);
    }
  }

  /**
   `display_feed` as a whole: the loop, then `cap.release()` and
   `cv2.destroyAllWindows()` on every exit except an exception from the
   classifier, which propagates past them.
   */
  function Feed<F>(ticks: seq<Tick<F>>, classify: F -> Option<Classification>, arduino: Channel): (r: FeedEnd)
    ensures r.stopAt <= |ticks|
    ensures forall i :: 0 <= i < r.stopAt ==> Proceeds(ticks[i], classify)
    ensures r.stopAt < |ticks| ==> !Proceeds(ticks[r.stopAt], classify)
    ensures r.released <==> r.reason != ClassifierRaised
    ensures r.reason == ClassifierRaised <==>
              r.stopAt < |ticks| && ticks[r.stopAt].frame.Some? && ticks[r.stopAt].key == SpaceKey
  {
    var l := Loop(ticks, classify, arduino);
    FeedEnd(l.channel, l.shown, l.stopAt, l.reason, l.reason != ClassifierRaised)
  }

  /** What a session shows and sends: the SPACE classifications before the stop, and their gated command bytes. */
  lemma FeedContents<F>(ticks: seq<Tick<F>>, classify: F -> Option<Classification>, arduino: Channel)
    ensures var r := Feed(ticks, classify, arduino);
      && r.shown == Requested(ticks[..r.stopAt], classify)
      && r.channel == Deliver(arduino, Commands(r.shown))
  {
    LoopShown(ticks, classify, arduino);
    LoopChannel(ticks, classify, arduino);
  }

  /** With no link the loop still runs, and never writes. */
  lemma FeedDisconnected<F>(ticks: seq<Tick<F>>, classify: F -> Option<Classification>)
    ensures Feed(ticks, classify, Disconnected).channel == Disconnected
  {
    FeedContents(ticks, classify, Disconnected);
  }

  /** A live link receives at most one byte per gated classification, hence per SPACE tick processed, and only protocol bytes. */
  lemma FeedBytesBounded<F>(ticks: seq<Tick<F>>, classify: F -> Option<Classification>, log: seq<char>)
    ensures var r := Feed(ticks, classify, Connected(log));
      && r.channel.Connected?
      && log <= r.channel.log
      && |r.channel.log| - |log| <= Gated(r.shown) <= |r.shown| <= SpaceTicks(ticks[..r.stopAt])
      && forall i :: |log| <= i < |r.channel.log| ==> IsCommandByte(r.channel.log[i])
  {
    var r := Feed(ticks, classify, Connected(log));
    FeedContents(ticks, classify, Connected(log));
    CommandsBounded(r.shown);
    RequestedBounded(ticks[..r.stopAt], classify);
    assert forall i :: |log| <= i < |r.channel.log| ==> r.channel.log[i] == Commands(r.shown)[i - |log|];
  }

  /** A first read that fails ends the session at once: nothing classified, nothing sent, everything released. */
  lemma FeedFirstReadFails<F>(ticks: seq<Tick<F>>, classify: F -> Option<Classification>, arduino: Channel)
    requires |ticks| == 0 || ticks[0].frame.None?
    ensures Feed(ticks, classify, arduino) == FeedEnd(arduino, [], 0, ReadFailed, true)
  {
  }

  /** One SPACE press on a frame whose category has a bin sends that bin's byte exactly when the confidence reaches the threshold. */
  lemma FeedGate<F>(f: F, classify: F -> Option<Classification>, log: seq<char>)
    requires classify(f).Some? && CommandFor(Normalize(classify(f).value.category)).Some?
    ensures var r := Feed([Tick(Some(f), SpaceKey)], classify, Connected(log));
      && r.shown == [classify(f).value]
      && r.released
      && (classify(f).value.confidence >= Threshold <==>
            r.channel == Connected(log + [CommandFor(Normalize(classify(f).value.category)).value]))
      && (classify(f).value.confidence < Threshold <==> r.channel == Connected(log))
  {
    var c := classify(f).value;
    var ch := Connected(log);
    SingleSpace(f, classify, ch);
    var b := CommandFor(Normalize(c.category)).value;
    assert Feed([Tick(Some(f), SpaceKey)], classify, ch) == FeedEnd(Gate(ch, c), [c], 1, ReadFailed, true);
    if c.confidence >= Threshold {
      assert Gate(ch, c) == Connected(log + [b]);
    } else {
      assert Gate(ch, c) == Connected(log);
      assert |log + [b]| == |log| + 1;
    }
  }

  /** A label of an unmapped category is shown but never sent, whatever its confidence. */
  lemma FeedUnmapped<F>(f: F, classify: F -> Option<Classification>, log: seq<char>)
    requires classify(f).Some? && CommandFor(Normalize(classify(f).value.category)).None?
    ensures Feed([Tick(Some(f), SpaceKey)], classify, Connected(log)).channel == Connected(log)
  {
    SingleSpace(f, classify, Connected(log));
  }

  lemma SingleSpace<F>(f: F, classify: F -> Option<Classification>, ch: Channel)
    requires classify(f).Some?
    ensures Loop([Tick(Some(f), SpaceKey)], classify, ch) ==
            LoopEnd(Gate(ch, classify(f).value), [classify(f).value], 1, ReadFailed)
  {
    var ticks := [Tick(Some(f), SpaceKey)];
    LoopUnfold(ticks, classify, ch);
    assert ticks[1..] == [];
    assert ShownAt(ticks[0], classify) == [classify(f).value];
  }

  /** "Pl\u00e1stico" at 93%: shown, and exactly one 'P' written. */
  lemma FeedPlastico<F>(f: F, classify: F -> Option<Classification>)
    requires classify(f) == Some(Classification("Pl\U{00E1}stico", 0.93))
    ensures Feed([Tick(Some(f), SpaceKey)], classify, Connected([])) ==
            FeedEnd(Connected(['P']), [Classification("Pl\U{00E1}stico", 0.93)], 1, ReadFailed, true)
  {
    SingleSpace(f, classify, Connected([]));
    SendPlastico([]);
  }

  /** "Papel" at 40%: shown, nothing written. */
  lemma FeedPapelBelowThreshold<F>(f: F, classify: F -> Option<Classification>)
    requires classify(f) == Some(Classification("Papel", 0.40))
    ensures Feed([Tick(Some(f), SpaceKey)], classify, Connected([])) ==
            FeedEnd(Connected([]), [Classification("Papel", 0.40)], 1, ReadFailed, true)
  {
    SingleSpace(f, classify, Connected([]));
  }

  /** A confidence of exactly the threshold dispatches; one just below it does not. */
  lemma FeedAtThreshold<F>(f: F, classify: F -> Option<Classification>)
    requires classify(f) == Some(Classification("Papel", 0.85))
    ensures Feed([Tick(Some(f), SpaceKey)], classify, Connected([])).channel == Connected(['L'])
  {
    SingleSpace(f, classify, Connected([]));
    SendPapel([]);
  }

  lemma FeedJustBelowThreshold<F>(f: F, classify: F -> Option<Classification>)
    requires classify(f) == Some(Classification("Papel", 0.849))
    ensures Feed([Tick(Some(f), SpaceKey)], classify, Connected([])).channel == Connected([])
  {
    SingleSpace(f, classify, Connected([]));
  }

  /** The loop restarted at tick `i`, when that tick proceeds. */
  lemma LoopStep<F>(ticks: seq<Tick<F>>, i: nat, classify: F -> Option<Classification>, ch: Channel)
    requires i < |ticks| && Proceeds(ticks[i], classify)
    ensures Loop(ticks[i..], classify, ch) ==
            Shift(1, ShownAt(ticks[i], classify), Loop(ticks[i + 1..], classify, LinkAfter(ticks[i], classify, ch)))
  {
    LoopUnfold(ticks[i..], classify, ch);
    assert ticks[i..][1..] == ticks[i + 1..];
  }

  /** The loop restarted at tick `i`, when that tick does not proceed or the stream is over. */
  lemma LoopHalts<F>(ticks: seq<Tick<F>>, i: nat, classify: F -> Option<Classification>, ch: Channel)
    requires i <= |ticks| && (i == |ticks| || !Proceeds(ticks[i], classify))
    ensures var r := Loop(ticks[i..], classify, ch);
      r.channel == ch && r.shown == [] && r.stopAt == 0
  {
    if i < |ticks| {
      assert ticks[i..][0] == ticks[i];
    }
  }

  /**
   `display_feed` written as the source writes it: `while True`, a read, a
   key, ESC breaks, SPACE classifies and maybe dispatches; the release runs
   after the loop and is skipped when the classifier raises.
   */
  method DisplayFeed<F>(ticks: seq<Tick<F>>, classify: F -> Option<Classification>, arduino: Channel)
    returns (r: FeedEnd)
    ensures r == Feed(ticks, classify, arduino)
    ensures r.released <==> r.reason != ClassifierRaised
  {
    var i := 0;
    var ch := arduino;
    var shown: seq<Classification> := [];
    var reason := ReadFailed;
    while true
      invariant 0 <= i <= |ticks|
      invariant Loop(ticks, classify, arduino) == Shift(i, shown, Loop(ticks[i..], classify, ch))
      decreases |ticks| - i
    {
      if i == |ticks| || ticks[i].frame.None? {
        LoopHalts(ticks, i, classify, ch);
        reason := ReadFailed;
        break;
      }
      var frame := ticks[i].frame.value;
      var key := ticks[i].key;
      if key == EscKey {
        LoopHalts(ticks, i, classify, ch);
        reason := ExitKey;
        break;
      }
      ghost var rest := Loop(ticks[i + 1..], classify, LinkAfter(ticks[i], classify, ch));
      if key == SpaceKey {
        var result := classify(frame);
        if result.None? {
          LoopHalts(ticks, i, classify, ch);
          return FeedEnd(ch, shown, i, ClassifierRaised, false);
        }
        var c := result.value;
        LoopStep(ticks, i, classify, ch);
        ShiftTwice(i, shown, 1, [c], rest);
        shown := shown + [c];
        if c.confidence >= Threshold {
          ch := Send(ch, c.category);
        }
      } else {
        LoopStep(ticks, i, classify, ch);
        ShiftTwice(i, shown, 1, [], rest);
        assert shown + [] == shown;
      }
      i := i + 1;
    }
    r := FeedEnd(ch, shown, i, reason, true);
  }
}
