/** The calculator's input state machine on values: one record holding the
    six fields of the calculator plus the display text, one transition
    function per event handler, and the properties that any sequence of
    events keeps.  The class in calculator_machine.dfy is proved against
    these functions. */
module CalculatorState {

  datatype Option<T> = None | Some(value: T)

  /** The four operators the result switch knows. */
  datatype ArithOp = Add | Sub | Mul | Div

  /** Parsing both operands as decimal numbers, applying the operator and
      printing the number back.  It is left uninterpreted: every property
      here holds whatever this function computes. */
  type Evaluator = (ArithOp, string, string) -> string

  /** The calculator's fields and the text its display shows. */
  datatype State = State(
    currentInput: string,
    operator: string,
    previousInput: string,
    isOperatorPressed: bool,
    isDecimalPressed: bool,
    isOff: bool,
    display: string)

  /** Number input is accepted only while the operand is shorter than this. */
  const Cap: nat := 8

  const Greetings: seq<string> := ["Hola", "Kamusta", "Bonjour", "Ciao", "Hallo"]

  const Farewell: string := "Goodbye"

  /** The state right after construction: empty operands, every flag false,
      and the display redrawn from the empty operand. */
  const Initial: State := State("", "", "", false, false, false, "")

  /** The six calculator fields agree; the display may differ. */
  predicate SameFields(a: State, b: State)
  {
    a.currentInput == b.currentInput && a.operator == b.operator &&
    a.previousInput == b.previousInput &&
    a.isOperatorPressed == b.isOperatorPressed &&
    a.isDecimalPressed == b.isDecimalPressed && a.isOff == b.isOff
  }

  function Symbol(a: ArithOp): (r: string)
  {
    match a
    case Add => "+"
    case Sub => "-"
    case Mul => "*"
    case Div => "/"
  }

  /** Which case of the result switch an operator string selects. */
  function ParseOperator(op: string): (r: Option<ArithOp>)
    ensures r.Some? ==> Symbol(r.value) == op
    ensures r.None? ==> forall a :: Symbol(a) != op
  {
    if op == "+" then Some(Add)
    else if op == "-" then Some(Sub)
    else if op == "*" then Some(Mul)
    else if op == "/" then Some(Div)
    else None
  }

  /** The text the result switch produces: the evaluated result for the four
      known operators, the printed number 0 for anything else. */
  function ApplyOperator(op: string, prev: string, cur: string, eval: Evaluator): (r: string)
    ensures forall a :: op == Symbol(a) ==> r == eval(a, prev, cur)
    ensures (forall a :: Symbol(a) != op) ==> r == "0"
  {
    match ParseOperator(op)
    case Some(a) => eval(a, prev, cur)
    case None => "0"
  }

  /** A number button. */
  function NumberInput(s: State, value: string): (r: State)
    ensures s.isOff || |s.currentInput| >= Cap ==> r == s
    ensures !s.isOff && |s.currentInput| < Cap ==>
      && r.currentInput == (if s.isOperatorPressed then value else s.currentInput + value)
      && !r.isOperatorPressed
      && r.isDecimalPressed == (s.isDecimalPressed && !s.isOperatorPressed)
      && r.display == r.currentInput
      && r.operator == s.operator && r.previousInput == s.previousInput
      && r.isOff == s.isOff
  {
    if s.isOff || |s.currentInput| >= Cap then s
    else if s.isOperatorPressed then
      s.(currentInput := value, isOperatorPressed := false, isDecimalPressed := false,
         display := value)
    else
      var typed := s.currentInput + value;
      s.(currentInput := typed, display := typed)
  }

  /** An operator button: the operand is copied, not cleared, and the
      display is not redrawn. */
  function OperatorInput(s: State, op: string): (r: State)
    ensures s.isOff || s.isOperatorPressed ==> r == s
    ensures !s.isOff && !s.isOperatorPressed ==>
      && r.previousInput == s.currentInput && r.operator == op
      && r.isOperatorPressed && !r.isDecimalPressed
      && r.currentInput == s.currentInput && r.display == s.display
      && r.isOff == s.isOff
  {
    if s.isOff || s.isOperatorPressed then s
    else
      s.(previousInput := s.currentInput, operator := op, isOperatorPressed := true,
         isDecimalPressed := false)
  }

  /** The result computation behind the equals button. */
  function CalculateResult(s: State, eval: Evaluator): (r: State)
    ensures s.isOff ==> r == s
    ensures !s.isOff ==>
      && r.currentInput == ApplyOperator(s.operator, s.previousInput, s.currentInput, eval)
      && r.display == r.currentInput
      && r.operator == s.operator && r.previousInput == s.previousInput
      && r.isOperatorPressed == s.isOperatorPressed
      && r.isDecimalPressed == s.isDecimalPressed && r.isOff == s.isOff
  {
    if s.isOff then s
    else
      var result := ApplyOperator(s.operator, s.previousInput, s.currentInput, eval);
      s.(currentInput := result, display := result)
  }

  /** Equals fires only on a complete "previous operator current" triple. */
  predicate EqualsEnabled(s: State)
  {
    !s.isOff && s.operator != "" && s.previousInput != "" && s.currentInput != ""
  }

  /** The equals button. */
  function Equals(s: State, eval: Evaluator): (r: State)
    ensures !EqualsEnabled(s) ==> r == s
    ensures EqualsEnabled(s) ==>
      && r.currentInput == ApplyOperator(s.operator, s.previousInput, s.currentInput, eval)
      && r.display == r.currentInput
      && r.previousInput == "" && r.operator == ""
      && r.isOperatorPressed == s.isOperatorPressed
      && r.isDecimalPressed == s.isDecimalPressed && r.isOff == s.isOff
  {
    if EqualsEnabled(s) then CalculateResult(s, eval).(previousInput := "", operator := "")
    else s
  }

  /** The backspace button. */
  function Backspace(s: State): (r: State)
    ensures s.isOff ==> r == s
    ensures !s.isOff && s.currentInput != "" ==>
      r.currentInput + [s.currentInput[|s.currentInput| - 1]] == s.currentInput
    ensures !s.isOff && s.currentInput == "" ==> r.currentInput == ""
    ensures !s.isOff ==>
      && r.display == r.currentInput
      && r.operator == s.operator && r.previousInput == s.previousInput
      && r.isOperatorPressed == s.isOperatorPressed
      && r.isDecimalPressed == s.isDecimalPressed && r.isOff == s.isOff
  {
    if s.isOff then s
    else
      var kept := if s.currentInput == "" then "" else s.currentInput[..|s.currentInput| - 1];
      s.(currentInput := kept, display := kept)
  }

  /** The power-off button, without the timer that blanks the display later. */
  function Bye(s: State): (r: State)
    ensures r.isOff && r.display == Farewell
    ensures r.currentInput == s.currentInput && r.operator == s.operator
    ensures r.previousInput == s.previousInput
    ensures r.isOperatorPressed == s.isOperatorPressed
    ensures r.isDecimalPressed == s.isDecimalPressed
  {
    s.(display := Farewell, isOff := true)
  }

  /** Which greeting a random draw in [0, 1) picks. */
  function GreetingIndex(rand: real): (i: nat)
    requires 0.0 <= rand < 1.0
    ensures i < |Greetings|
    ensures i as real <= rand * |Greetings| as real < i as real + 1.0
  {
    (rand * |Greetings| as real).Floor
  }

  /** The greeting button: it works while off as well. */
  function Hello(s: State, rand: real): (r: State)
    requires 0.0 <= rand < 1.0
    ensures r.display in Greetings
    ensures SameFields(r, s)
  {
    s.(display := Greetings[GreetingIndex(rand)])
  }

  /** The clear button: it works from every state and turns the calculator
      back on.  The display is first redrawn from the empty operand, then
      overwritten with "0". */
  function Clear(s: State): (r: State)
    ensures r.currentInput == "" && r.operator == "" && r.previousInput == ""
    ensures !r.isOperatorPressed && !r.isDecimalPressed && !r.isOff
    ensures r.display == "0"
  {
    var redrawn := s.(operator := "", previousInput := "", isOperatorPressed := false,
                      isDecimalPressed := false, isOff := false, currentInput := "",
                      display := "");
    redrawn.(display := "0")
  }

  /** The events the buttons deliver. */
  datatype Event =
    | NumberKey(value: string)
    | OperatorKey(op: string)
    | EqualsKey
    | BackspaceKey
    | ByeKey
    | HelloKey(rand: real)
    | ClearKey

  /** A greeting event carries a draw of Math.random, which lies in [0, 1). */
  predicate WellFormed(e: Event)
  {
    e.HelloKey? ==> 0.0 <= e.rand < 1.0
  }

  predicate AllWellFormed(evs: seq<Event>)
  {
    forall e :: e in evs ==> WellFormed(e)
  }

  /** One button event, dispatched to its handler as the click listeners do. */
  function Step(s: State, e: Event, eval: Evaluator): (r: State)
    requires WellFormed(e)
    ensures s.isOff && !e.ClearKey? ==> SameFields(r, s)
    ensures e.ClearKey? ==> !r.isOff && r.display == "0"
  {
    match e
    case NumberKey(v) => NumberInput(s, v)
    case OperatorKey(op) => OperatorInput(s, op)
    case EqualsKey => Equals(s, eval)
    case BackspaceKey => Backspace(s)
    case ByeKey => Bye(s)
    case HelloKey(rand) => Hello(s, rand)
    case ClearKey => Clear(s)
  }

  /** The state after handling the events one at a time, in order. */
  function Run(s: State, evs: seq<Event>, eval: Evaluator): (r: State)
    requires AllWellFormed(evs)
    ensures evs != [] && evs[|evs| - 1] == ClearKey ==> r == Clear(Initial)
    decreases |evs|
  {
    if evs == [] then s
    else
      assert evs[0] in evs;
      Run(Step(s, evs[0], eval), evs[1..], eval)
  }

  lemma {:induction false} RunAppend(s: State, evs: seq<Event>, more: seq<Event>, eval: Evaluator)
    requires AllWellFormed(evs) && AllWellFormed(more)
    ensures AllWellFormed(evs + more)
    ensures Run(s, evs + more, eval) == Run(Run(s, evs, eval), more, eval)
    decreases |evs|
  {
    if evs == [] {
      assert evs + more == more;
    } else {
      assert evs[0] in evs;
      assert (evs + more)[1..] == evs[1..] + more;
      RunAppend(Step(s, evs[0], eval), evs[1..], more, eval);
    }
  }

  // ---------------------------------------------------------------------
  // What holds in every state reachable from construction

  /** The invariant of every reachable state: the decimal flag is never set;
      while off the display shows the farewell or a greeting; while on it
      shows the operand, a greeting, or the "0" that clear leaves. */
  predicate Inv(s: State)
  {
    && !s.isDecimalPressed
    && (s.isOff ==> s.display == Farewell || s.display in Greetings)
    && (!s.isOff ==>
          s.display == s.currentInput || s.display in Greetings ||
          (s.currentInput == "" && s.display == "0"))
  }

  lemma InitialInv()
    ensures Inv(Initial)
  {
  }

  lemma StepInv(s: State, e: Event, eval: Evaluator)
    requires WellFormed(e) && Inv(s)
    ensures Inv(Step(s, e, eval))
  {
  }

  lemma {:induction false} RunInv(s: State, evs: seq<Event>, eval: Evaluator)
    requires AllWellFormed(evs) && Inv(s)
    ensures Inv(Run(s, evs, eval))
    decreases |evs|
  {
    if evs != [] {
      assert evs[0] in evs;
      StepInv(s, evs[0], eval);
      RunInv(Step(s, evs[0], eval), evs[1..], eval);
    }
  }

  /** isDecimalPressed is only ever assigned false. */
  lemma DecimalNeverPressed(evs: seq<Event>, eval: Evaluator)
    requires AllWellFormed(evs)
    ensures !Run(Initial, evs, eval).isDecimalPressed
  {
    RunInv(Initial, evs, eval);
  }

  // ---------------------------------------------------------------------
  // Being off

  /** The four handlers gated by the off flag. */
  predicate Gated(e: Event)
  {
    e.NumberKey? || e.OperatorKey? || e.EqualsKey? || e.BackspaceKey?
  }

  /** While off, the gated handlers change nothing at all, display included. */
  lemma {:induction false} OffGatedInert(s: State, evs: seq<Event>, eval: Evaluator)
    requires s.isOff
    requires forall e :: e in evs ==> Gated(e)
    ensures AllWellFormed(evs)
    ensures Run(s, evs, eval) == s
    decreases |evs|
  {
    if evs != [] {
      assert evs[0] in evs;
      assert forall e :: e in evs[1..] ==> e in evs;
      OffGatedInert(s, evs[1..], eval);
    }
  }

  /** Once off, no event except clear changes a calculator field, and the
      calculator stays off. */
  lemma {:induction false} OffUntilClear(s: State, evs: seq<Event>, eval: Evaluator)
    requires s.isOff && AllWellFormed(evs)
    requires ClearKey !in evs
    ensures SameFields(Run(s, evs, eval), s)
    decreases |evs|
  {
    if evs != [] {
      assert evs[0] in evs;
      var t := Step(s, evs[0], eval);
      assert SameFields(t, s);
      OffUntilClear(t, evs[1..], eval);
    }
  }

  /** After bye, events without clear leave the calculator off with the
      operands bye left; the clear that ends the stretch turns it back on in
      the cleared state. */
  lemma {:induction false} ByeHoldsUntilClear(s: State, evs: seq<Event>, eval: Evaluator)
    requires AllWellFormed(evs) && ClearKey !in evs
    ensures AllWellFormed([ByeKey] + evs) && AllWellFormed([ByeKey] + evs + [ClearKey])
    ensures SameFields(Run(s, [ByeKey] + evs, eval), Bye(s))
    ensures Run(Run(s, [ByeKey] + evs, eval), [ClearKey], eval) == Clear(Initial)
    ensures Run(s, [ByeKey] + evs + [ClearKey], eval) == Clear(Initial)
  {
    RunAppend(s, [ByeKey], evs, eval);
    assert Run(s, [ByeKey], eval) == Bye(s);
    OffUntilClear(Bye(s), evs, eval);
    RunAppend(s, [ByeKey] + evs, [ClearKey], eval);
  }

  // ---------------------------------------------------------------------
  // Typing digits

  /** One number event per character of the text. */
  function Keys(text: string): (evs: seq<Event>)
    ensures |evs| == |text|
    ensures forall i :: 0 <= i < |text| ==> evs[i] == NumberKey([text[i]])
  {
    if text == "" then [] else [NumberKey([text[0]])] + Keys(text[1..])
  }

  lemma KeysWellFormed(text: string)
    ensures AllWellFormed(Keys(text))
  {
  }

  function Min(a: int, b: int): (m: int)
  {
    if a <= b then a else b
  }

  lemma RunKeysUnfold(s: State, text: string, eval: Evaluator)
    requires text != ""
    ensures AllWellFormed(Keys(text)) && AllWellFormed(Keys(text[1..]))
    ensures Run(s, Keys(text), eval) == Run(NumberInput(s, [text[0]]), Keys(text[1..]), eval)
  {
    KeysWellFormed(text);
    KeysWellFormed(text[1..]);
    assert Keys(text)[1..] == Keys(text[1..]);
  }

  /** Typing characters one by one appends them to the operand until it holds
      eight characters; the rest are dropped. */
  lemma {:induction false} TypingAppends(s: State, text: string, eval: Evaluator)
    requires !s.isOff && !s.isOperatorPressed && |s.currentInput| <= Cap
    ensures AllWellFormed(Keys(text))
    ensures Run(s, Keys(text), eval).currentInput
         == (s.currentInput + text)[..Min(Cap, |s.currentInput| + |text|)]
    decreases |text|
  {
    KeysWellFormed(text);
    var cur := s.currentInput;
    if text == "" {
      assert cur + text == cur;
    } else {
      RunKeysUnfold(s, text, eval);
      var t := NumberInput(s, [text[0]]);
      if |cur| < Cap {
        assert t.currentInput == cur + [text[0]] && !t.isOff && !t.isOperatorPressed;
        TypingAppends(t, text[1..], eval);
        AppendFirst(cur, text);
      } else {
        assert t == s;
        FullOperandIgnoresKeys(s, text[1..], eval);
        assert (cur + text)[..|cur|] == cur;
      }
    }
  }

  lemma AppendFirst(cur: string, text: string)
    requires text != ""
    ensures (cur + [text[0]]) + text[1..] == cur + text
  {
    assert text == [text[0]] + text[1..];
  }

  /** At the cap, further number input is dropped. */
  lemma {:induction false} FullOperandIgnoresKeys(s: State, text: string, eval: Evaluator)
    requires |s.currentInput| >= Cap
    ensures AllWellFormed(Keys(text))
    ensures Run(s, Keys(text), eval) == s
    decreases |text|
  {
    KeysWellFormed(text);
    if text != "" {
      assert Keys(text)[1..] == Keys(text[1..]);
      FullOperandIgnoresKeys(s, text[1..], eval);
    }
  }

  /** A single character typed below the cap keeps the operand within the cap. */
  lemma OneCharKeepsCap(s: State, c: char)
    requires |s.currentInput| <= Cap
    ensures |NumberInput(s, [c]).currentInput| <= Cap
  {
  }

  /** Backspace takes back the character just appended. */
  lemma BackspaceUndoesDigit(s: State, c: char)
    requires !s.isOff && !s.isOperatorPressed && |s.currentInput| < Cap
    ensures Backspace(NumberInput(s, [c])) == s.(display := s.currentInput)
  {
    assert (s.currentInput + [c])[..|s.currentInput|] == s.currentInput;
  }

  // ---------------------------------------------------------------------
  // Operators and equals

  /** A second operator before any digit is ignored: the first one stays. */
  lemma SecondOperatorIgnored(s: State, a: string, b: string)
    ensures OperatorInput(OperatorInput(s, a), b) == OperatorInput(s, a)
  {
  }

  /** Right after an operator, an eight-character first operand still held in
      currentInput blocks the next digit. */
  lemma FullOperandBlocksNextDigit(s: State, op: string, value: string)
    requires !s.isOff && !s.isOperatorPressed && |s.currentInput| == Cap
    ensures NumberInput(OperatorInput(s, op), value) == OperatorInput(s, op)
  {
  }

  /** "5 + 3 =" shows the evaluated sum. */
  lemma AddScenario(eval: Evaluator)
    ensures AllWellFormed([NumberKey("5"), OperatorKey("+"), NumberKey("3"), EqualsKey])
    ensures
      var r := Run(Initial, [NumberKey("5"), OperatorKey("+"), NumberKey("3"), EqualsKey], eval);
      r.display == eval(Add, "5", "3") && r.currentInput == r.display &&
      r.operator == "" && r.previousInput == "" && !r.isOperatorPressed
  {
    var evs := [NumberKey("5"), OperatorKey("+"), NumberKey("3"), EqualsKey];
    var s1 := NumberInput(Initial, "5");
    var s2 := OperatorInput(s1, "+");
    var s3 := NumberInput(s2, "3");
    assert s3.previousInput == "5" && s3.currentInput == "3" && s3.operator == "+";
    calc {
      Run(Initial, evs, eval);
      Run(s1, evs[1..], eval);
      Run(s2, evs[2..], eval);
      Run(s3, evs[3..], eval);
      Equals(s3, eval);
    }
  }

  /** Because an operator does not clear the operand, "5 + =" applies the
      operator to 5 twice, and the operator flag stays set afterwards, so the
      next operator is ignored and the next digit (if the result is below
      the cap) replaces the result. */
  lemma EqualsRightAfterOperator(eval: Evaluator, op: string, d: string)
    ensures Equals(OperatorInput(NumberInput(Initial, "5"), "+"), eval).currentInput
         == eval(Add, "5", "5")
    ensures Equals(OperatorInput(NumberInput(Initial, "5"), "+"), eval).isOperatorPressed
    ensures var r := Equals(OperatorInput(NumberInput(Initial, "5"), "+"), eval);
      OperatorInput(r, op) == r
    ensures var r := Equals(OperatorInput(NumberInput(Initial, "5"), "+"), eval);
      |r.currentInput| < Cap ==> NumberInput(r, d).currentInput == d
  {
    var s1 := NumberInput(Initial, "5");
    assert s1.currentInput == "5";
    var s2 := OperatorInput(s1, "+");
    assert s2.previousInput == "5" && s2.operator == "+" && s2.isOperatorPressed;
    assert Symbol(Add) == "+";
  }

  /** After clear, equals does nothing and the display still shows "0". */
  lemma ClearThenEquals(s: State, eval: Evaluator)
    ensures Equals(Clear(s), eval) == Clear(s)
    ensures Equals(Clear(s), eval).display == "0"
  {
  }
}
