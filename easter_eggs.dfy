/**
 * The kiosk's small counters: the Konami-code detector (check_konami), the
 * secret title-click counter (secret_click) and the countdown of the success
 * screen (show_success / do_countdown). Each is a step function on the
 * counter's value; the Kiosk class applies them to its fields.
 */
module EasterEggs {

  /** The key sequence that opens party mode. */
  const KonamiCode: seq<string> := ["Up", "Up", "Down", "Down", "Left", "Right", "Left", "Right", "b", "a"]

  /** Clicks on the title that open party mode. */
  const SecretClickThreshold: nat := 10

  /** Seconds shown when the success screen appears. */
  const CountdownStart: nat := 5

  /** The key recorded for a key event: for the keysyms "b" and "a" the event's character. */
  function KeyOf(keysym: string, ch: string): (key: string)
    ensures keysym == "b" || keysym == "a" ==> key == ch
    ensures keysym != "b" && keysym != "a" ==> key == keysym
  {
    if keysym == "b" || keysym == "a" then ch else keysym
  }

  /** The last (up to) n elements of s. */
  function LastN<T>(s: seq<T>, n: nat): (r: seq<T>)
    ensures |r| <= n && |r| <= |s|
  {
    if |s| <= n then s else s[|s| - n..]
  }

  /** The window after appending a key: the oldest key is dropped once it outgrows the code. */
  function Slide(window: seq<string>, key: string): (w: seq<string>)
    ensures |w| > 0 && w[|w| - 1] == key
    ensures |window| <= |KonamiCode| ==> |w| <= |KonamiCode|
    ensures |window| < |KonamiCode| ==> w == window + [key]
  {
    var w := window + [key];
    if |w| > |KonamiCode| then w[1..] else w
  }

  datatype KonamiStep = KonamiStep(window: seq<string>, party: bool)

  /** One key event: slide the window; when it spells the code, fire and clear it. */
  function KonamiAfter(window: seq<string>, key: string): (step: KonamiStep)
    ensures step.party <==> Slide(window, key) == KonamiCode
    ensures step.party ==> step.window == []
    ensures step.window != KonamiCode
    ensures |window| <= |KonamiCode| ==> |step.window| <= |KonamiCode|
  {
    var w := Slide(window, key);
    if w == KonamiCode then KonamiStep([], true) else KonamiStep(w, false)
  }

  /** Sliding the last ten keys of a history over a new key gives the last ten keys of the longer history. */
  lemma SlideKeepsLastTen(history: seq<string>, key: string)
    ensures Slide(LastN(history, |KonamiCode|), key) == LastN(history + [key], |KonamiCode|)
  {
    var n := |KonamiCode|;
    var h := history + [key];
    if |history| >= n {
      var w := LastN(history, n) + [key];
      assert w[1..] == h[|h| - n..] by {
        assert |w[1..]| == n == |h[|h| - n..]|;
        forall i | 0 <= i < n ensures w[1..][i] == h[|h| - n..][i] {
          if i < n - 1 {
            assert w[1..][i] == history[|history| - n + 1 + i];
          }
        }
      }
    }
  }

  /**
   * Fed the last ten keys since the window was cleared, a key event fires
   * exactly when the last ten keys, this one included, are the code; the new
   * window is then empty, and otherwise it is the last ten keys again.
   */
  lemma KonamiFiresOnCode(history: seq<string>, key: string)
    ensures var step := KonamiAfter(LastN(history, |KonamiCode|), key);
      && (step.party <==> LastN(history + [key], |KonamiCode|) == KonamiCode)
      && (step.party ==> step.window == [])
      && (!step.party ==> step.window == LastN(history + [key], |KonamiCode|))
      && |step.window| <= |KonamiCode|
  {
    SlideKeepsLastTen(history, key);
  }

  /** Feeding a sequence of keys, starting from a window. */
  function KonamiRun(window: seq<string>, keys: seq<string>): KonamiStep
    decreases |keys|
  {
    if keys == [] then KonamiStep(window, false)
    else
      var step := KonamiAfter(window, keys[0]);
      var rest := KonamiRun(step.window, keys[1..]);
      KonamiStep(rest.window, step.party || rest.party)
  }

  /** Typing the code on a cleared window fires party mode and clears the window again. */
  lemma KonamiCodeFires()
    ensures KonamiRun([], KonamiCode) == KonamiStep([], true)
  {
    KonamiCodeTailFires(0);
    assert KonamiCode[..0] == [] && KonamiCode[0..] == KonamiCode;
  }

  /** Having typed the first i keys of the code, typing the rest fires and clears the window. */
  lemma {:induction false} KonamiCodeTailFires(i: nat)
    requires i < |KonamiCode|
    ensures KonamiRun(KonamiCode[..i], KonamiCode[i..]) == KonamiStep([], true)
    decreases |KonamiCode| - i
  {
    var c := KonamiCode;
    assert Slide(c[..i], c[i]) == c[..i + 1];
    assert c[i..][0] == c[i] && c[i..][1..] == c[i + 1..];
    if i + 1 < |c| {
      assert |c[..i + 1]| != |c|;
      KonamiCodeTailFires(i + 1);
    } else {
      assert c[..i + 1] == c;
      assert c[i + 1..] == [];
    }
  }

  datatype ClickStep = ClickStep(clicks: nat, party: bool)

  /** One click on the title: count it; on reaching the threshold fire and restart from zero. */
  function SecretClickAfter(clicks: nat): (step: ClickStep)
    ensures step.clicks < SecretClickThreshold
    ensures step.party <==> step.clicks == 0
    ensures clicks + 1 < SecretClickThreshold ==> step.clicks == clicks + 1
  {
    if clicks + 1 >= SecretClickThreshold then ClickStep(0, true) else ClickStep(clicks + 1, false)
  }

  /** The counter always holds the clicks since the last party mode, modulo the threshold. */
  lemma SecretClickCountsModulo(total: nat)
    ensures var step := SecretClickAfter(total % SecretClickThreshold);
      && step.clicks == (total + 1) % SecretClickThreshold
      && (step.party <==> (total + 1) % SecretClickThreshold == 0)
  {
  }

  /** k clicks from a counter value: the final counter and the number of times party mode opens. */
  function ClickRun(clicks: nat, k: nat): (nat, nat)
    decreases k
  {
    if k == 0 then (clicks, 0)
    else
      var step := SecretClickAfter(clicks);
      var rest := ClickRun(step.clicks, k - 1);
      (rest.0, rest.1 + if step.party then 1 else 0)
  }

  /** Party mode opens once per ten clicks. */
  lemma {:induction false} ClickRunFiresEveryTenth(clicks: nat, k: nat)
    requires clicks < SecretClickThreshold
    ensures ClickRun(clicks, k) == ((clicks + k) % SecretClickThreshold, (clicks + k) / SecretClickThreshold)
    decreases k
  {
    if k > 0 {
      var step := SecretClickAfter(clicks);
      ClickRunFiresEveryTenth(step.clicks, k - 1);
    }
  }

  /** One tick of the success-screen countdown. */
  datatype Tick = Wait(remaining: nat) | ReturnHome

  function CountdownTick(countdown: nat): (t: Tick)
    ensures t.ReturnHome? <==> countdown == 0
    ensures t.Wait? ==> t.remaining + 1 == countdown
  {
    if countdown > 0 then Wait(countdown - 1) else ReturnHome
  }

  /** The state after k ticks from a countdown value. */
  function AfterTicks(countdown: nat, k: nat): Tick
    decreases k
  {
    if k == 0 then Wait(countdown)
    else match CountdownTick(countdown)
      case ReturnHome => ReturnHome
      case Wait(c) => AfterTicks(c, k - 1)
  }

  /** From c the countdown waits for c ticks and returns home on the next. */
  lemma {:induction false} CountdownReturnsHomeAfter(countdown: nat, k: nat)
    ensures AfterTicks(countdown, k) == if k <= countdown then Wait(countdown - k) else ReturnHome
    decreases k
  {
    if k > 0 && countdown > 0 {
      CountdownReturnsHomeAfter(countdown - 1, k - 1);
    }
  }

  /**
   * The success screen sets the countdown to 5 and ticks once at once, then
   * once per second: it shows for five seconds and returns home on the fifth.
   */
  lemma SuccessScreenLastsFiveSeconds(seconds: nat)
    ensures AfterTicks(CountdownStart, 1) == Wait(4)
    ensures AfterTicks(CountdownStart, 1 + seconds) == if seconds < 5 then Wait(4 - seconds) else ReturnHome
  {
    CountdownReturnsHomeAfter(CountdownStart, 1);
    CountdownReturnsHomeAfter(CountdownStart, 1 + seconds);
  }
}
