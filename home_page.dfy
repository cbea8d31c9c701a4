/**
 * The game-setup form of the home page: the typed time control (in minutes) and
 * increment (in seconds), what the form keeps of them as they are typed, and the
 * values `createGame` submits.
 */
module HomePage {
  import opened Wrappers
  import opened Decimal

  /** `parseInt(text) || d`: NaN and 0 are falsy and give way to the default. */
  function OrDefault(p: Option<int>, d: int): (v: int)
    ensures p.Some? && p.value != 0 ==> v == p.value
    ensures p.None? || p.value == 0 ==> v == d
  {
    if p.Some? && p.value != 0 then p.value else d
  }

  function Max(a: int, b: int): (m: int)
    ensures m >= a && m >= b && (m == a || m == b)
  {
    if a >= b then a else b
  }

  /**
   * `validTimeControl`: `Math.max(1, parseInt(timeInputValue) || 5) * 60`. Always a
   * positive whole number of minutes; NaN and 0 give five minutes, a negative count one.
   */
  function ValidTimeControl(input: string): (seconds: int)
    ensures seconds >= 60 && seconds % 60 == 0
    ensures ParseInt(input).None? || ParseInt(input) == Some(0) ==> seconds == 300
    ensures ParseInt(input).Some? && ParseInt(input).value > 0 ==> seconds == ParseInt(input).value * 60
    ensures ParseInt(input).Some? && ParseInt(input).value < 0 ==> seconds == 60
  {
    Max(1, OrDefault(ParseInt(input), 5)) * 60
  }

  /** `validIncrement`: `Math.max(0, parseInt(incrementInputValue) || 0)`. Never negative; NaN and negatives give 0. */
  function ValidIncrement(input: string): (seconds: int)
    ensures seconds >= 0
    ensures ParseInt(input).None? || ParseInt(input).value <= 0 ==> seconds == 0
    ensures ParseInt(input).Some? && ParseInt(input).value > 0 ==> seconds == ParseInt(input).value
  {
    Max(0, OrDefault(ParseInt(input), 0))
  }

  /** What the form holds: the parsed values and the raw text of both inputs. */
  datatype Form = Form(timeControl: int, increment: int, timeInput: string, incrementInput: string)

  /** Five minutes and two seconds, typed as "5" and "2". */
  const InitialForm: Form := Form(300, 2, "5", "2")

  /** Typing in the time field: the text is kept; the minutes are taken only when the text parses. */
  function OnTimeInput(f: Form, value: string): (g: Form)
    ensures g.timeInput == value && g.increment == f.increment && g.incrementInput == f.incrementInput
    ensures ParseInt(value).Some? ==> g.timeControl == ParseInt(value).value * 60
    ensures ParseInt(value).None? ==> g.timeControl == f.timeControl
  {
    var parsed := ParseInt(value);
    var f1 := f.(timeInput := value);
    if parsed.Some? then f1.(timeControl := parsed.value * 60) else f1
  }

  /** Typing in the increment field: the text is kept; the seconds are taken only when the text parses. */
  function OnIncrementInput(f: Form, value: string): (g: Form)
    ensures g.incrementInput == value && g.timeControl == f.timeControl && g.timeInput == f.timeInput
    ensures ParseInt(value).Some? ==> g.increment == ParseInt(value).value
    ensures ParseInt(value).None? ==> g.increment == f.increment
  {
    var parsed := ParseInt(value);
    var f1 := f.(incrementInput := value);
    if parsed.Some? then f1.(increment := parsed.value) else f1
  }

  /** The body `createGame` posts. */
  datatype GameRequest = GameRequest(timeControl: int, incrementPerMove: int)

  /** `createGame` validates the raw text of both inputs, not the parsed values the form keeps. */
  function CreateGameRequest(f: Form): (r: GameRequest)
    ensures r.timeControl >= 60 && r.timeControl % 60 == 0 && r.incrementPerMove >= 0
    ensures r == GameRequest(ValidTimeControl(f.timeInput), ValidIncrement(f.incrementInput))
  {
    GameRequest(ValidTimeControl(f.timeInput), ValidIncrement(f.incrementInput))
  }

  /** Typing a positive number of minutes submits that many minutes, in seconds. */
  lemma TypedMinutes(m: int)
    requires m >= 1
    ensures ValidTimeControl(IntToString(m)) == m * 60
  {
    ParseIntOfIntToString(m);
  }

  /** Typing a non-negative number of seconds submits exactly that increment. */
  lemma TypedIncrement(n: int)
    requires n >= 0
    ensures ValidIncrement(IntToString(n)) == n
  {
    ParseIntOfIntToString(n);
  }

  /** When the typed minutes are positive and the typed increment is not negative, the form's values are what is submitted. */
  lemma SubmittedMatchesForm(f: Form, minutes: string, increment: string)
    requires ParseInt(minutes).Some? && ParseInt(minutes).value >= 1
    requires ParseInt(increment).Some? && ParseInt(increment).value >= 0
    ensures var g := OnIncrementInput(OnTimeInput(f, minutes), increment);
      CreateGameRequest(g) == GameRequest(g.timeControl, g.increment)
  {
  }

  /** Typing "0" minutes keeps 0 in the form, yet five minutes are submitted. */
  lemma ZeroMinutesSubmitsDefault(f: Form)
    ensures OnTimeInput(f, "0").timeControl == 0
    ensures CreateGameRequest(OnTimeInput(f, "0")).timeControl == 300
  {
    assert ParseInt("0") == Some(0) by {
      assert AllDigits("0");
      assert DigitsValue("0") == 0 by {
        assert "0"[..0] == [];
      }
    }
  }
}
