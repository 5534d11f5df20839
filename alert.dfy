/**
 * The inference loop's alerting: the sound debounce flag `canPlaySound`, the
 * displayed `touched` state, and the side effects (the alarm sound and the
 * notification) that each step requests.
 *
 * The first half is the state machine as pure functions over events; the
 * second half is the `App` component whose fields the loop and the sound's
 * `end` handler update in place, proved against those functions.
 */
module Alert {
  import opened Decision

  /** The notification the alarm requests on every touched step. */
  const AlertTitle: string := "Cảnh báo"
  const AlertBody: string := "Vui lòng không chạm tay vào mạt!"

  /** A side effect requested of the outside world. */
  datatype Effect = PlaySound | Notify(title: string, body: string)

  const AlertNotification: Effect := Notify(AlertTitle, AlertBody)

  /**
   * What drives the component: one inference step with the classifier's
   * result, or the alarm sound reporting that it finished playing.
   */
  datatype Event = Inferred(prediction: Prediction) | SoundEnded

  /** The two pieces of state the component keeps between steps. */
  datatype State = State(canPlaySound: bool, touched: bool)

  /** On mount the sound may play and nothing is shown as touched. */
  const Initial: State := State(true, false)

  predicate TouchEvent(e: Event)
  {
    e.Inferred? && IsTouched(e.prediction)
  }

  /** The state after one event. */
  function Next(s: State, e: Event): (t: State)
    ensures e.Inferred? ==> t.touched == IsTouched(e.prediction)
    ensures e.Inferred? ==> (t.canPlaySound <==> s.canPlaySound && !IsTouched(e.prediction))
    ensures e == SoundEnded ==> t.canPlaySound && t.touched == s.touched
  {
    match e
    case SoundEnded => s.(canPlaySound := true)
    case Inferred(p) =>
      if IsTouched(p) then State(false, true) else s.(touched := false)
  }

  /** The side effects requested while handling one event, in order. */
  function Emitted(s: State, e: Event): (fx: seq<Effect>)
    ensures Sounds(fx) == (if TouchEvent(e) && s.canPlaySound then 1 else 0)
    ensures Notifications(fx) == (if TouchEvent(e) then 1 else 0)
    ensures forall x :: x in fx ==> x == PlaySound || x == AlertNotification
  {
    match e
    case SoundEnded => []
    case Inferred(p) =>
      if !IsTouched(p) then []
      else if s.canPlaySound then [PlaySound, AlertNotification]
      else [AlertNotification]
  }

  /** How many times a sequence of effects plays the sound. */
  function Sounds(fx: seq<Effect>): nat
  {
    multiset(fx)[PlaySound]
  }

  /** How many notifications a sequence of effects requests. */
  function Notifications(fx: seq<Effect>): nat
  {
    multiset(fx)[AlertNotification]
  }

  /**
   * The state after a sequence of events: a run that ends with an inference
   * step shows that step's decision, and one that ends with the sound's `end`
   * signal may play the sound again.
   */
  function Final(s: State, evs: seq<Event>): (t: State)
    ensures evs != [] && evs[|evs| - 1].Inferred? ==> t.touched == IsTouched(evs[|evs| - 1].prediction)
    ensures evs != [] && evs[|evs| - 1] == SoundEnded ==> t.canPlaySound
    ensures evs == [] ==> t == s
    decreases |evs|
  {
    if evs == [] then s else Final(Next(s, evs[0]), evs[1..])
  }

  /** All side effects requested while handling a sequence of events. */
  function Trace(s: State, evs: seq<Event>): (fx: seq<Effect>)
    ensures forall x :: x in fx ==> x == PlaySound || x == AlertNotification
    decreases |evs|
  {
    if evs == [] then [] else Emitted(s, evs[0]) + Trace(Next(s, evs[0]), evs[1..])
  }

  /** The number of touched steps among the events. */
  function TouchCount(evs: seq<Event>): nat
    decreases |evs|
  {
    if evs == [] then 0 else (if TouchEvent(evs[0]) then 1 else 0) + TouchCount(evs[1..])
  }

  /** The number of sound `end` signals among the events. */
  function EndCount(evs: seq<Event>): nat
  {
    multiset(evs)[SoundEnded]
  }

  /** Every touched step is followed, later on, by the sound's `end` signal. */
  ghost predicate EveryTouchEnded(evs: seq<Event>)
  {
    forall j :: 0 <= j < |evs| && TouchEvent(evs[j]) ==> SoundEnded in evs[j + 1..]
  }

  /** Handling events one run after another is handling their concatenation. */
  lemma {:induction false} Split(s: State, a: seq<Event>, b: seq<Event>)
    ensures Final(s, a + b) == Final(Final(s, a), b)
    ensures Trace(s, a + b) == Trace(s, a) + Trace(Final(s, a), b)
    decreases |a|
  {
    if a == [] {
      assert a + b == b;
    } else {
      assert (a + b)[0] == a[0];
      assert (a + b)[1..] == a[1..] + b;
      Split(Next(s, a[0]), a[1..], b);
    }
  }

  /**
   * Debounce: across any run of steps with no `end` signal, the sound plays at
   * most once, and not at all when it could not play at the start.
   */
  lemma {:induction false} AtMostOneSoundWithoutEnd(s: State, evs: seq<Event>)
    requires SoundEnded !in evs
    ensures Sounds(Trace(s, evs)) <= if s.canPlaySound then 1 else 0
    decreases |evs|
  {
    if evs != [] {
      assert evs[0] in evs;
      assert forall e :: e in evs[1..] ==> e in evs;
      AtMostOneSoundWithoutEnd(Next(s, evs[0]), evs[1..]);
    }
  }

  /**
   * Debounce, the other direction: when the sound can play, a run with at
   * least one touched step and no `end` signal plays it exactly once,
   * whatever untouched steps come between.
   */
  lemma {:induction false} ExactlyOneWhenArmed(s: State, evs: seq<Event>)
    requires SoundEnded !in evs && s.canPlaySound && TouchCount(evs) > 0
    ensures Sounds(Trace(s, evs)) == 1
    decreases |evs|
  {
    assert evs[0] in evs;
    assert forall e :: e in evs[1..] ==> e in evs;
    if TouchEvent(evs[0]) {
      AtMostOneSoundWithoutEnd(Next(s, evs[0]), evs[1..]);
    } else {
      ExactlyOneWhenArmed(Next(s, evs[0]), evs[1..]);
    }
  }

  /**
   * Re-arm: after the sound's `end` signal, the next run of steps with a
   * touched step and no further `end` plays the sound exactly once again,
   * whatever state the flag was in before.
   */
  lemma PlaysAgainAfterEnd(s: State, evs: seq<Event>)
    requires SoundEnded !in evs && TouchCount(evs) > 0
    ensures Sounds(Trace(s, [SoundEnded] + evs)) == 1
  {
    assert ([SoundEnded] + evs)[0] == SoundEnded && ([SoundEnded] + evs)[1..] == evs;
    ExactlyOneWhenArmed(Next(s, SoundEnded), evs);
  }

  /**
   * Over any run, the sound plays at most once per `end` signal, plus once
   * more if it could play at the start; and never more often than there are
   * touched steps.
   */
  lemma {:induction false} SoundsBounded(s: State, evs: seq<Event>)
    ensures Sounds(Trace(s, evs)) <= EndCount(evs) + (if s.canPlaySound then 1 else 0)
    ensures Sounds(Trace(s, evs)) <= TouchCount(evs)
    decreases |evs|
  {
    if evs != [] {
      assert evs == [evs[0]] + evs[1..];
      assert multiset(evs) == multiset([evs[0]]) + multiset(evs[1..]);
      SoundsBounded(Next(s, evs[0]), evs[1..]);
    }
  }

  /** Every touched step requests exactly one notification, whatever the flag. */
  lemma {:induction false} NotificationPerTouch(s: State, evs: seq<Event>)
    ensures Notifications(Trace(s, evs)) == TouchCount(evs)
    decreases |evs|
  {
    if evs != [] {
      NotificationPerTouch(Next(s, evs[0]), evs[1..]);
    }
  }

  /** An `end` signal after a touched step lets the next touched step play again. */
  lemma Rearm(s: State, p: Prediction, q: Prediction)
    requires IsTouched(p) && IsTouched(q)
    ensures Sounds(Trace(s, [Inferred(p), Inferred(q)])) == (if s.canPlaySound then 1 else 0)
    ensures Sounds(Trace(s, [Inferred(p), SoundEnded, Inferred(q)])) == (if s.canPlaySound then 2 else 1)
  {
    var touched := State(false, true);
    assert Trace(touched, [Inferred(q)]) == [AlertNotification] by {
      assert [Inferred(q)][1..] == [];
    }
    assert Trace(s, [Inferred(p), Inferred(q)]) == Emitted(s, Inferred(p)) + [AlertNotification] by {
      assert [Inferred(p), Inferred(q)][1..] == [Inferred(q)];
    }
    var rearmed := State(true, true);
    assert Trace(rearmed, [Inferred(q)]) == [PlaySound, AlertNotification] by {
      assert [Inferred(q)][1..] == [];
    }
    assert Trace(touched, [SoundEnded, Inferred(q)]) == [PlaySound, AlertNotification] by {
      assert [SoundEnded, Inferred(q)][1..] == [Inferred(q)];
    }
    assert Trace(s, [Inferred(p), SoundEnded, Inferred(q)]) == Emitted(s, Inferred(p)) + [PlaySound, AlertNotification] by {
      assert [Inferred(p), SoundEnded, Inferred(q)][1..] == [SoundEnded, Inferred(q)];
    }
  }

  lemma EveryTouchEndedCons(evs: seq<Event>)
    requires evs != []
    ensures EveryTouchEnded(evs) <==>
              (TouchEvent(evs[0]) ==> SoundEnded in evs[1..]) && EveryTouchEnded(evs[1..])
  {
  }

  /**
   * The debounce flag is set after a run exactly when every touched step of
   * the run was followed by an `end` signal, and the flag was set at the
   * start or some `end` signal arrived.
   */
  lemma {:induction false} FlagIffTouchesEnded(s: State, evs: seq<Event>)
    ensures Final(s, evs).canPlaySound <==>
              EveryTouchEnded(evs) && (s.canPlaySound || SoundEnded in evs)
    decreases |evs|
  {
    if evs != [] {
      EveryTouchEndedCons(evs);
      assert evs == [evs[0]] + evs[1..];
      FlagIffTouchesEnded(Next(s, evs[0]), evs[1..]);
    }
  }

  /** From mount, the sound can play exactly when every touched step has ended. */
  lemma FlagFromMount(evs: seq<Event>)
    ensures Final(Initial, evs).canPlaySound <==> EveryTouchEnded(evs)
  {
    FlagIffTouchesEnded(Initial, evs);
  }

  /** `end` signals leave the displayed state alone. */
  lemma {:induction false} EndsKeepTouched(s: State, evs: seq<Event>)
    requires forall k :: 0 <= k < |evs| ==> evs[k] == SoundEnded
    ensures Final(s, evs).touched == s.touched
    decreases |evs|
  {
    if evs != [] {
      EndsKeepTouched(Next(s, evs[0]), evs[1..]);
    }
  }

  /** After a run, `touched` is the decision of the last inference step in it. */
  lemma TouchedIsLastDecision(s: State, evs: seq<Event>, j: nat)
    requires j < |evs| && evs[j].Inferred?
    requires forall k :: j < k < |evs| ==> evs[k] == SoundEnded
    ensures Final(s, evs).touched == IsTouched(evs[j].prediction)
  {
    assert evs == evs[..j] + ([evs[j]] + evs[j + 1..]);
    Split(s, evs[..j], [evs[j]] + evs[j + 1..]);
    var m := Final(s, evs[..j]);
    Split(m, [evs[j]], evs[j + 1..]);
    EndsKeepTouched(Final(m, [evs[j]]), evs[j + 1..]);
  }

  /** Handling the events from index `i` on is handling event `i`, then the rest. */
  lemma Unfold(s: State, evs: seq<Event>, i: nat)
    requires i < |evs|
    ensures Final(s, evs[i..]) == Final(Next(s, evs[i]), evs[i + 1..])
    ensures Trace(s, evs[i..]) == Emitted(s, evs[i]) + Trace(Next(s, evs[i]), evs[i + 1..])
  {
    assert evs[i..][0] == evs[i] && evs[i..][1..] == evs[i + 1..];
  }

  lemma Regroup(a: seq<Effect>, b: seq<Effect>, c: seq<Effect>)
    ensures (a + b) + c == a + (b + c)
  {
  }

  /**
   * The component: `canPlaySound` is the ref the inference loop and the
   * sound's `end` handler share, `touched` the displayed state, and
   * `effects` every side effect requested so far, oldest first.
   */
  class App {
    var canPlaySound: bool
    var touched: bool
    var effects: seq<Effect>

    function Current(): State
      reads this
    {
      State(canPlaySound, touched)
    }

    constructor ()
      ensures Current() == Initial && effects == []
    {
      canPlaySound := true;
      touched := false;
      effects := [];
    }

    /** One pass of the inference loop on the classifier's result `p`. */
    method Run(p: Prediction)
      modifies this
      ensures Current() == Next(old(Current()), Inferred(p))
      ensures effects == old(effects) + Emitted(old(Current()), Inferred(p))
    {
      if IsTouched(p) {
        if canPlaySound {
          canPlaySound := false;
          effects := effects + [PlaySound];
        }
        effects := effects + [AlertNotification];
        touched := true;
      } else {
        touched := false;
      }
    }

    /** The sound's `end` handler. */
    method OnSoundEnd()
      modifies this
      ensures Current() == Next(old(Current()), SoundEnded)
      ensures touched == old(touched) && effects == old(effects)
    {
      canPlaySound := true;
    }

    /** One event, dispatched to the inference step or to the `end` handler. */
    method Handle(e: Event)
      modifies this
      ensures Current() == Next(old(Current()), e)
      ensures effects == old(effects) + Emitted(old(Current()), e)
    {
      match e {
        case Inferred(p) => Run(p);
        case SoundEnded => OnSoundEnd();
      }
    }

    /** The self-rescheduling loop, over a finite sequence of events. */
    method RunAll(events: seq<Event>)
      modifies this
      ensures Current() == Final(old(Current()), events)
      ensures effects == old(effects) + Trace(old(Current()), events)
    {
      ghost var start, log := Current(), effects;
      var i := 0;
      while i < |events|
        invariant 0 <= i <= |events|
        invariant Final(Current(), events[i..]) == Final(start, events)
        invariant effects + Trace(Current(), events[i..]) == log + Trace(start, events)
      {
        ghost var before, fx := Current(), effects;
        Unfold(before, events, i);
        Handle(events[i]);
        Regroup(fx, Emitted(before, events[i]), Trace(Current(), events[i + 1..]));
        i := i + 1;
      }
    }
  }
}
