/** The Calculator object: its fields are updated in place by one method per
    button handler.  Each method is proved to move the object exactly as the
    matching transition of CalculatorState does, and to keep the invariant
    of reachable states. */
module CalculatorMachine {
  import opened CalculatorState

  class Calculator {
    var display: string
    var currentInput: string
    var operator: string
    var previousInput: string
    var isOperatorPressed: bool
    var isDecimalPressed: bool
    var isOff: bool

    /** Number parsing, arithmetic and printing, supplied from outside. */
    const eval: Evaluator

    /** The object's fields as a State value. */
    function Snapshot(): State
      reads this
    {
      State(currentInput, operator, previousInput, isOperatorPressed, isDecimalPressed,
            isOff, display)
    }

    ghost predicate Valid()
      reads this
    {
      Inv(Snapshot())
    }

    /** Fields start empty and false; the display is then drawn from the
        empty operand. */
    constructor(eval: Evaluator)
      ensures Valid()
      ensures Snapshot() == Initial && this.eval == eval
    {
      this.eval := eval;
      currentInput := "";
      operator := "";
      previousInput := "";
      isOperatorPressed := false;
      isDecimalPressed := false;
      isOff := false;
      new;
      UpdateDisplay();
      InitialInv();
    }

    method UpdateDisplay()
      modifies this`display
      ensures display == currentInput
    {
      display := currentInput;
    }

    method HandleNumberInput(value: string)
      requires Valid()
      modifies this
      ensures Valid()
      ensures Snapshot() == NumberInput(old(Snapshot()), value)
    {
      if !isOff {
        if |currentInput| < Cap {
          if isOperatorPressed {
            currentInput := value;
            isOperatorPressed := false;
            isDecimalPressed := false;
          } else {
            currentInput := currentInput + value;
          }
          UpdateDisplay();
        }
      }
    }

    method HandleOperatorInput(op: string)
      requires Valid()
      modifies this
      ensures Valid()
      ensures Snapshot() == OperatorInput(old(Snapshot()), op)
    {
      if !isOff {
        if !isOperatorPressed {
          previousInput := currentInput;
          operator := op;
          isOperatorPressed := true;
          isDecimalPressed := false;
        }
      }
    }

    method HandleEquals()
      requires Valid()
      modifies this
      ensures Valid()
      ensures Snapshot() == Equals(old(Snapshot()), eval)
    {
      if !isOff {
        if operator != "" && previousInput != "" && currentInput != "" {
          CalculateResult();
          previousInput := "";
          operator := "";
        }
      }
      StepInv(old(Snapshot()), EqualsKey, eval);
    }

    method HandleBackspace()
      requires Valid()
      modifies this
      ensures Valid()
      ensures Snapshot() == Backspace(old(Snapshot()))
    {
      if !isOff {
        if currentInput != "" {
          currentInput := currentInput[..|currentInput| - 1];
        }
        UpdateDisplay();
      }
    }

    method HandleBye()
      requires Valid()
      modifies this
      ensures Valid()
      ensures Snapshot() == Bye(old(Snapshot()))
    {
      display := Farewell;
      isOff := true;
    }

    /** `rand` is the draw of Math.random. */
    method HandleHello(rand: real)
      requires Valid()
      requires 0.0 <= rand < 1.0
      modifies this
      ensures Valid()
      ensures Snapshot() == Hello(old(Snapshot()), rand)
    {
      var i := GreetingIndex(rand);
      display := Greetings[i];
    }

    method HandleClear()
      modifies this
      ensures Valid()
      ensures Snapshot() == Clear(old(Snapshot()))
    {
      operator := "";
      previousInput := "";
      isOperatorPressed := false;
      isDecimalPressed := false;
      isOff := false;
      currentInput := "";
      UpdateDisplay();
      display := "0";
    }

    method CalculateResult()
      modifies this
      ensures Snapshot() == CalculatorState.CalculateResult(old(Snapshot()), eval)
    {
      if !isOff {
        currentInput := ApplyOperator(operator, previousInput, currentInput, eval);
        UpdateDisplay();
      }
    }

    /** Dispatches one event to its handler, as the button listeners do. */
    method Handle(e: Event)
      requires Valid() && WellFormed(e)
      modifies this
      ensures Valid()
      ensures Snapshot() == Step(old(Snapshot()), e, eval)
    {
      match e
      case NumberKey(v) => HandleNumberInput(v);
      case OperatorKey(op) => HandleOperatorInput(op);
      case EqualsKey => HandleEquals();
      case BackspaceKey => HandleBackspace();
      case ByeKey => HandleBye();
      case HelloKey(rand) => HandleHello(rand);
      case ClearKey => HandleClear();
    }
  }
}
