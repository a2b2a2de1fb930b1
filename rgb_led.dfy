/** A model of the RGB LED driver `RgbLed`: three digital output ports driven
    from a colour and a wiring polarity, an on/off switch, a cancellation flag
    and the blink animation loop, as a sequential trace without timing. */
module RgbLeds {

  /** The colours the driver's switch handles. */
  datatype Colors = Red | Green | Blue | Yellow | Magenta | Cyan | White | Black

  /** Wiring polarity: whether a lit channel is driven high or low. */
  datatype CommonType = CommonCathode | CommonAnode

  /** The three channels of the LED. */
  datatype Channel = RedChannel | GreenChannel | BlueChannel

  /** The electrical levels of the red, green and blue output ports. */
  datatype Levels = Levels(red: bool, green: bool, blue: bool)

  /** Unsigned 32-bit durations in milliseconds, as the blink call takes them. */
  newtype uint32 = x: int | 0 <= x < 0x1_0000_0000

  /** Reference definition of each colour by additive mixing of light: the
      channels that must be lit to show it. */
  function Channels(c: Colors): set<Channel>
  {
    match c
    case Red => {RedChannel}
    case Green => {GreenChannel}
    case Blue => {BlueChannel}
    case Yellow => {RedChannel, GreenChannel}
    case Magenta => {RedChannel, BlueChannel}
    case Cyan => {GreenChannel, BlueChannel}
    case White => {RedChannel, GreenChannel, BlueChannel}
    case Black => {}
  }

  /** The level that lights a channel: high for common cathode, low for common anode. */
  function OnState(common: CommonType): bool
  {
    common == CommonCathode
  }

  /** The switch of `SetColor`: the port levels that show `color` under `common`.
      A port is at the lit level exactly when its channel belongs to the colour. */
  function Pattern(color: Colors, common: CommonType): (r: Levels)
    ensures r.red <==> (RedChannel in Channels(color) <==> common == CommonCathode)
    ensures r.green <==> (GreenChannel in Channels(color) <==> common == CommonCathode)
    ensures r.blue <==> (BlueChannel in Channels(color) <==> common == CommonCathode)
  {
    var on := OnState(common);
    match color
    case Red => Levels(on, !on, !on)
    case Green => Levels(!on, on, !on)
    case Blue => Levels(!on, !on, on)
    case Yellow => Levels(on, on, !on)
    case Magenta => Levels(on, !on, on)
    case Cyan => Levels(!on, on, on)
    case White => Levels(on, on, on)
    case Black => Levels(!on, !on, !on)
  }

  /** All three levels flipped. */
  function Invert(l: Levels): Levels
  {
    Levels(!l.red, !l.green, !l.blue)
  }

  /** Under common cathode the table is the familiar one, with high meaning lit. */
  lemma CathodeTruthTable()
    ensures Pattern(Red, CommonCathode) == Levels(true, false, false)
    ensures Pattern(Green, CommonCathode) == Levels(false, true, false)
    ensures Pattern(Blue, CommonCathode) == Levels(false, false, true)
    ensures Pattern(Yellow, CommonCathode) == Levels(true, true, false)
    ensures Pattern(Magenta, CommonCathode) == Levels(true, false, true)
    ensures Pattern(Cyan, CommonCathode) == Levels(false, true, true)
    ensures Pattern(White, CommonCathode) == Levels(true, true, true)
    ensures Pattern(Black, CommonCathode) == Levels(false, false, false)
  {
  }

  /** Common anode drives every port to the opposite level of common cathode. */
  lemma AnodeInvertsCathode(c: Colors)
    ensures Pattern(c, CommonAnode) == Invert(Pattern(c, CommonCathode))
  {
  }

  /** Under a fixed polarity no two colours share a row of the table. */
  lemma PatternInjective(c1: Colors, c2: Colors, common: CommonType)
    ensures Pattern(c1, common) == Pattern(c2, common) <==> c1 == c2
  {
  }

  // ---------------------------------------------------------------------
  // The driver's state as a value, and what each operation does to it.
  // ---------------------------------------------------------------------

  /** A snapshot of an `RgbLed`: the port levels, the stored colour, the
      polarity, the on flag and whether cancellation has been requested. */
  datatype LedState = LedState(
    ports: Levels, color: Colors, common: CommonType, isOn: bool, cancelRequested: bool)

  /** `SetColor(c)`: the argument is overwritten by the stored colour before
      the switch, so the ports show the stored colour whatever `c` is. */
  function AfterSetColor(s: LedState, c: Colors): LedState
  {
    var shown := s.color;
    s.(ports := Pattern(shown, s.common))
  }

  /** The `IsOn` setter. */
  function AfterSetIsOn(s: LedState, value: bool): LedState
  {
    var s1 := s.(isOn := value);
    if value then AfterSetColor(s1, s1.color)
    else AfterSetColor(s1.(cancelRequested := true), Black)
  }

  /** `Stop`: request cancellation of the running animation. */
  function AfterStop(s: LedState): LedState
  {
    s.(cancelRequested := true)
  }

  /** The synchronous part of `StartBlink`: cancel if not yet cancelled, then
      `SetColor(Black)`. */
  function AfterStartBlink(s: LedState): LedState
  {
    var s1 := if !s.cancelRequested then AfterStop(s) else s;
    AfterSetColor(s1, Black)
  }

  /** The invariant of every driver built and driven by the code modelled
      here: the stored colour is the one the constructor gives it, since no
      other operation assigns it. */
  predicate ColorInvariant(s: LedState)
  {
    s.color == White
  }

  /** The state right after construction. */
  function Initial(red: bool, green: bool, blue: bool, commonType: CommonType): LedState
  {
    LedState(Levels(red, green, blue), White, commonType, false, false)
  }

  /** Every operation keeps the stored colour, so the invariant holds of
      every reachable state. */
  lemma OperationsKeepColorInvariant(s: LedState, c: Colors, v: bool)
    requires ColorInvariant(s)
    ensures ColorInvariant(AfterSetColor(s, c))
    ensures ColorInvariant(AfterSetIsOn(s, v))
    ensures ColorInvariant(AfterStop(s))
    ensures ColorInvariant(AfterStartBlink(s))
  {
  }

  /** `SetColor` ignores its argument and, in every reachable state, writes the
      White row; it changes nothing but the ports. */
  lemma SetColorWritesStoredColor(s: LedState, c: Colors)
    requires ColorInvariant(s)
    ensures AfterSetColor(s, c).ports == Pattern(White, s.common)
    ensures AfterSetColor(s, c) == s.(ports := AfterSetColor(s, c).ports)
    ensures forall d :: AfterSetColor(s, d) == AfterSetColor(s, c)
  {
  }

  /** Turning the LED off sets the flag, requests cancellation and shows the
      stored colour; it does not drive the Black row. */
  lemma TurnOffStaysLit(s: LedState)
    requires ColorInvariant(s)
    ensures AfterSetIsOn(s, false).isOn == false
    ensures AfterSetIsOn(s, false).cancelRequested
    ensures AfterSetIsOn(s, false).ports == Pattern(White, s.common)
    ensures AfterSetIsOn(s, false).ports != Pattern(Black, s.common)
  {
  }

  /** Turning the LED on shows the stored colour and leaves the flag as it was;
      turning it off and on again ends in the stored colour's row. */
  lemma TurnOnShowsStoredColor(s: LedState)
    ensures AfterSetIsOn(s, true).isOn
    ensures AfterSetIsOn(s, true).ports == Pattern(s.color, s.common)
    ensures AfterSetIsOn(s, true).cancelRequested == s.cancelRequested
    ensures AfterSetIsOn(AfterSetIsOn(s, false), true).ports == Pattern(s.color, s.common)
  {
  }

  /** `Stop` sets the flag, changes nothing else, and a second call does nothing. */
  lemma StopIdempotent(s: LedState)
    ensures AfterStop(s).cancelRequested
    ensures AfterStop(s).(cancelRequested := s.cancelRequested) == s
    ensures AfterStop(AfterStop(s)) == AfterStop(s)
  {
  }

  /** After `StartBlink` returns, cancellation is requested whatever it was
      before, and the ports show what `SetColor(Black)` writes. */
  lemma StartBlinkCancelsPrevious(s: LedState)
    ensures AfterStartBlink(s).cancelRequested
    ensures AfterStartBlink(s).ports == Pattern(s.color, s.common)
    ensures AfterStartBlink(s).isOn == s.isOn
    ensures AfterStartBlink(s) == AfterSetColor(AfterStop(s), Black)
  {
  }

  // ---------------------------------------------------------------------
  // The blink loop as a trace of `SetColor` calls.
  // ---------------------------------------------------------------------

  /** The number of rounds the loop runs when `observed[i]` is the
      cancellation flag it reads at the top of round `i`: the index of the
      first `true`, or all of `observed` when none is set. */
  function FirstCancel(observed: seq<bool>): (n: nat)
    ensures n <= |observed|
    ensures forall j :: 0 <= j < n ==> !observed[j]
    ensures n < |observed| ==> observed[n]
  {
    if observed == [] || observed[0] then 0 else 1 + FirstCancel(observed[1..])
  }

  /** The `SetColor` arguments of `n` uncancelled rounds: `c`, then Black. */
  function Rounds(c: Colors, n: nat): (r: seq<Colors>)
    ensures |r| == 2 * n
    ensures forall k :: 0 <= k < |r| ==> r[k] == if k % 2 == 0 then c else Black
  {
    if n == 0 then [] else Rounds(c, n - 1) + [c, Black]
  }

  /** The `SetColor` arguments the loop issues for the flags it reads. */
  function BlinkTrace(c: Colors, observed: seq<bool>): seq<Colors>
  {
    Rounds(c, FirstCancel(observed))
  }

  /** Once the loop reads a set flag it makes no further call: the trace holds
      two calls per round before round `j` and nothing from round `j` on. */
  lemma BlinkStopsAtCancel(c: Colors, observed: seq<bool>, j: nat)
    requires j < |observed| && observed[j]
    requires forall i :: 0 <= i < j ==> !observed[i]
    ensures |BlinkTrace(c, observed)| == 2 * j
    ensures BlinkTrace(c, observed) == BlinkTrace(c, observed[..j + 1])
  {
  }

  /** What the loop does depends only on the flags up to the first set one:
      later flags, set or not, change nothing. */
  lemma {:induction false} BlinkIgnoresLaterFlags(c: Colors, observed: seq<bool>, later: seq<bool>)
    requires exists j :: 0 <= j < |observed| && observed[j]
    ensures BlinkTrace(c, observed + later) == BlinkTrace(c, observed)
  {
    FirstCancelOfPrefix(observed, later);
  }

  lemma {:induction false} FirstCancelOfPrefix(observed: seq<bool>, later: seq<bool>)
    requires exists j :: 0 <= j < |observed| && observed[j]
    ensures FirstCancel(observed + later) == FirstCancel(observed)
  {
    if !observed[0] {
      var j :| 0 <= j < |observed| && observed[j];
      assert observed[1..][j - 1];
      assert (observed + later)[1..] == observed[1..] + later;
      FirstCancelOfPrefix(observed[1..], later);
    }
  }

  // ---------------------------------------------------------------------
  // The driver object.
  // ---------------------------------------------------------------------

  class RgbLed {
    /** The states of the red, green and blue output ports. */
    var redState: bool
    var greenState: bool
    var blueState: bool
    /** The stored colour; only the constructor assigns it. */
    var color: Colors
    /** The wiring polarity; only the constructor assigns it. */
    var common: CommonType
    /** The on flag behind the `IsOn` property. */
    var isOn: bool
    /** Whether the current cancellation token source has been cancelled. */
    var cancelRequested: bool

    /** The port levels. */
    function Ports(): Levels
      reads this
    {
      Levels(redState, greenState, blueState)
    }

    /** The whole state as a value. */
    function State(): LedState
      reads this
    {
      LedState(Ports(), color, common, isOn, cancelRequested)
    }

    ghost predicate Valid()
      reads this
    {
      ColorInvariant(State())
    }

    /** Builds a driver over ports at the given levels; the ports are not
        written, the stored colour is White and the LED counts as off. */
    constructor (red: bool, green: bool, blue: bool, commonType: CommonType := CommonCathode)
      ensures Valid()
      ensures State() == Initial(red, green, blue, commonType)
    {
      redState, greenState, blueState := red, green, blue;
      common := commonType;
      cancelRequested := false;
      color := White;
      isOn := false;
    }

    /** Requests cancellation of any running animation. */
    method Stop()
      requires Valid()
      modifies this
      ensures Valid()
      ensures State() == AfterStop(old(State()))
    {
      cancelRequested := true;
    }

    /** Writes the three ports from the stored colour; `c` is overwritten
        before it is read. The switch covers every stored colour, since a
        subclass may store one other than White; from a valid state it
        writes the White row. */
    method SetColor(c: Colors)
      modifies this
      ensures State() == AfterSetColor(old(State()), c)
      ensures old(Valid()) ==> Valid() && Ports() == Pattern(White, common)
    {
      var shown := color;
      var on := common == CommonCathode;
      match shown
      case Red =>
        redState, greenState, blueState := on, !on, !on;
      case Green =>
        redState, greenState, blueState := !on, on, !on;
      case Blue =>
        redState, greenState, blueState := !on, !on, on;
      case Yellow =>
        redState, greenState, blueState := on, on, !on;
      case Magenta =>
        redState, greenState, blueState := on, !on, on;
      case Cyan =>
        redState, greenState, blueState := !on, on, on;
      case White =>
        redState, greenState, blueState := on, on, on;
      case Black =>
        redState, greenState, blueState := !on, !on, !on;
    }

    /** The `IsOn` setter. */
    method SetIsOn(value: bool)
      requires Valid()
      modifies this
      ensures Valid()
      ensures State() == AfterSetIsOn(old(State()), value)
    {
      isOn := value;
      if isOn {
        SetColor(color);
      } else {
        cancelRequested := true;
        SetColor(Black);
      }
    }

    /** The synchronous part of `StartBlink`; starting the task that runs
        `BlinkLoop` is not modelled. */
    method StartBlink(c: Colors, onDuration: uint32 := 200, offDuration: uint32 := 200)
      requires Valid()
      modifies this
      ensures Valid()
      ensures State() == AfterStartBlink(old(State()))
    {
      if !cancelRequested {
        cancelRequested := true;
      }
      SetColor(Black);
    }

    /** The loop of `StartBlinkAsync` without its delays. `observed[i]` is the
        cancellation flag read at the top of round `i`; the loop ends at the
        first set flag, or when `observed` runs out. `calls` are the
        arguments passed to `SetColor` and `writes` the port levels after each
        call. */
    method BlinkLoop(c: Colors, observed: seq<bool>) returns (calls: seq<Colors>, writes: seq<Levels>)
      requires Valid()
      modifies this
      ensures Valid()
      ensures calls == BlinkTrace(c, observed)
      ensures |writes| == |calls|
      ensures forall k :: 0 <= k < |writes| ==> writes[k] == Pattern(White, common)
      ensures State() == if calls == [] then old(State()) else AfterSetColor(old(State()), c)
    {
      calls, writes := [], [];
      var i := 0;
      while i < |observed| && !observed[i]
        invariant i <= |observed|
        invariant forall j :: 0 <= j < i ==> !observed[j]
        invariant calls == Rounds(c, i)
        invariant |writes| == |calls|
        invariant forall k :: 0 <= k < |writes| ==> writes[k] == Pattern(White, common)
        invariant State() == if i == 0 then old(State()) else AfterSetColor(old(State()), c)
      {
        SetColor(c);
        calls, writes := calls + [c], writes + [Ports()];
        SetColor(Black);
        calls, writes := calls + [Black], writes + [Ports()];
        i := i + 1;
      }
    }
  }

  /** A driver built on dark common-cathode ports and then switched off shows
      White: every port high. */
  method TurnOffAfterConstruction() returns (led: RgbLed)
    ensures led.Ports() == Levels(true, true, true)
    ensures led.Ports() != Pattern(Black, CommonCathode)
    ensures !led.isOn && led.cancelRequested
  {
    led := new RgbLed(false, false, false);
    led.SetIsOn(false);
  }
}
