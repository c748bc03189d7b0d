# Calculator input state machine

A Dafny model of the `Calculator` class of a browser calculator widget
(`src/Calculator.ts`). The class keeps six fields: the operand being typed
(`currentInput`), the pending operator, the operand captured before it
(`previousInput`), and the flags `isOperatorPressed`, `isDecimalPressed` and
`isOff`. It also owns a display whose text it overwrites. Button clicks call
one handler each: number, operator, equals, backspace, bye, hello and clear.
`calculateResult` is the internal step behind equals.

The project has two modules:

- `CalculatorState` (calculator_state.dfy) describes the object as a value.
  `State` holds the six fields and the display text, and there is one
  transition function per handler. `Step` and `Run` apply a sequence of
  button events. The module also holds the lemmas about any such sequence:
  - an invariant kept by every reachable state;
  - being off until clear;
  - how typed digits accumulate up to the cap of 8;
  - how backspace undoes a digit;
  - the ignored second operator;
  - a few button scenarios.
- `CalculatorMachine` (calculator_machine.dfy) is the class itself. It has
  the same fields, with the display as a plain `string`, and one method per
  handler. Each method updates the fields in place under the source's
  guards. Each one is proved to leave the object in exactly the state the
  matching transition function gives. Each handler method also keeps the
  invariant `Valid()`; the internal `CalculateResult` and `UpdateDisplay`
  have no `Valid()` contract.

Number parsing, the arithmetic and the printing of the result are left
abstract. They are an `Evaluator` function, `(ArithOp, string, string) ->
string`, that the object receives at construction. It is applied only for
the operators `+ - * /`. Any other operator string yields the text `"0"`,
because the source prints the number 0 in that case. Every property proved
here holds whatever the evaluator computes.

The model follows the code as written. This code has no decimal-point
event and no sign toggle. Operators do not chain, and an operator does not
clear `currentInput` or redraw the display. The digit cap is 8 characters
and is checked before appending. There is no `"Error"` marker.
Division is whatever the evaluator returns, so there is no
division-by-zero-gives-0 policy. Hello is not gated by the off flag.

## Model

| member | source | states |
|---|---|---|
| CalculatorState.ParseOperator | src/Calculator.ts:130-145 | the switch picks an arithmetic case exactly for "+", "-", "*", "/" (the chosen case's symbol is the operator); every other string falls to the default |
| CalculatorState.ApplyOperator | src/Calculator.ts:130-146 | the result text is the evaluator's result for the operator's case, and "0" for an operator outside the four |
| CalculatorState.NumberInput | src/Calculator.ts:59-72 | off or at 8+ characters nothing changes; otherwise currentInput becomes the value right after an operator (both flags cleared) or has the value appended, isOperatorPressed ends false, the display equals currentInput, operator/previousInput/isOff unchanged |
| CalculatorState.OperatorInput | src/Calculator.ts:74-83 | off or with an operator already pressed nothing changes; otherwise previousInput becomes currentInput, the operator is stored, isOperatorPressed set, isDecimalPressed cleared, and currentInput and the display are unchanged |
| CalculatorState.CalculateResult | src/Calculator.ts:127-149 | off changes nothing; otherwise currentInput and the display become the result text, all other fields unchanged |
| CalculatorState.Equals | src/Calculator.ts:85-93 | fires only when on with operator, previousInput and currentInput all non-empty; then currentInput and the display are the result, previousInput and operator are empty, the flags unchanged; otherwise nothing changes |
| CalculatorState.Backspace | src/Calculator.ts:95-100 | off changes nothing; otherwise the new currentInput followed by the old last character is the old currentInput (empty stays empty), the display equals currentInput, other fields unchanged |
| CalculatorState.Bye | src/Calculator.ts:102-104 | the calculator is off and shows "Goodbye"; operands, operator and the two other flags unchanged |
| CalculatorState.GreetingIndex | src/Calculator.ts:111-112 | a draw in [0, 1) picks index floor(5 * draw), which is a valid index into the five greetings |
| CalculatorState.Hello | src/Calculator.ts:110-114 | the display shows one of the five greetings and no calculator field changes, whether on or off |
| CalculatorState.Clear | src/Calculator.ts:116-125 | from any state: operator, previousInput and currentInput empty, all three flags false (on again), display "0" |
| CalculatorState.InitialInv | src/Calculator.ts:2-14 | the constructed state satisfies the reachable-state invariant |
| CalculatorState.StepInv | src/Calculator.ts:59-125 | every handler preserves the invariant: decimal flag false; when off the display is "Goodbye" or a greeting; when on it is currentInput, a greeting, or "0" over an empty operand |
| CalculatorState.RunInv | src/Calculator.ts:59-125 | the invariant holds after any sequence of button events |
| CalculatorState.DecimalNeverPressed | src/Calculator.ts:7-7 | isDecimalPressed is false in every state reachable from construction (it is only ever assigned false, at lines 65, 80 and 120) |
| CalculatorState.OffGatedInert | src/Calculator.ts:59-100 | while off, any sequence of number, operator, equals and backspace events leaves every field and the display unchanged |
| CalculatorState.OffUntilClear | src/Calculator.ts:59-125 | once off, no sequence of events without clear changes any of the six fields; the calculator stays off |
| CalculatorState.Step | src/Calculator.ts:25-56 | one button event goes to its handler; while off, every event but clear leaves the six fields unchanged; clear always turns the calculator on with "0" shown |
| CalculatorState.Run | src/Calculator.ts:25-56 | events are handled one after another; a sequence that ends with clear ends in the cleared state, whatever came before |
| CalculatorState.ByeHoldsUntilClear | src/Calculator.ts:102-125 | after bye, events without clear keep the calculator off with the operands and flags bye left; the clear that follows gives the cleared state |
| CalculatorState.TypingAppends | src/Calculator.ts:59-72 | typing characters one at a time (not right after an operator) appends them to currentInput until it holds 8 characters; later ones are dropped |
| CalculatorState.FullOperandIgnoresKeys | src/Calculator.ts:61-61 | with 8 or more characters in currentInput, any number of further number keys change nothing |
| CalculatorState.OneCharKeepsCap | src/Calculator.ts:61-67 | a one-character number key keeps an operand of at most 8 characters at most 8 |
| CalculatorState.BackspaceUndoesDigit | src/Calculator.ts:59-100 | a digit typed below the cap followed by backspace restores the state, the display then showing currentInput |
| CalculatorState.SecondOperatorIgnored | src/Calculator.ts:74-83 | a second operator before any digit is ignored; the first operator is kept |
| CalculatorState.FullOperandBlocksNextDigit | src/Calculator.ts:59-83 | right after an operator, an 8-character first operand still in currentInput blocks the next digit |
| CalculatorState.AddScenario | src/Calculator.ts:59-149 | "5 + 3 =" from a fresh calculator shows the evaluator's result for 5 + 3 and leaves operator and previousInput empty |
| CalculatorState.EqualsRightAfterOperator | src/Calculator.ts:74-93 | "5 + =" applies + to 5 and 5, leaves isOperatorPressed set so the next operator is ignored, and (below the cap) the next digit replaces the result |
| CalculatorState.ClearThenEquals | src/Calculator.ts:85-125 | equals right after clear is a no-op and the display still shows "0" |
| CalculatorMachine.Calculator.constructor | src/Calculator.ts:2-14 | fields initialised empty/false and the display drawn from the empty operand |
| CalculatorMachine.Calculator.UpdateDisplay | src/Calculator.ts:151-153 | the display shows currentInput |
| CalculatorMachine.Calculator.HandleNumberInput | src/Calculator.ts:59-72 | the object moves as NumberInput says and keeps the invariant |
| CalculatorMachine.Calculator.HandleOperatorInput | src/Calculator.ts:74-83 | the object moves as OperatorInput says and keeps the invariant |
| CalculatorMachine.Calculator.HandleEquals | src/Calculator.ts:85-93 | the object moves as Equals says and keeps the invariant |
| CalculatorMachine.Calculator.HandleBackspace | src/Calculator.ts:95-100 | the object moves as Backspace says and keeps the invariant |
| CalculatorMachine.Calculator.HandleBye | src/Calculator.ts:102-104 | the object moves as Bye says and keeps the invariant |
| CalculatorMachine.Calculator.HandleHello | src/Calculator.ts:110-114 | the object moves as Hello says for the given random draw and keeps the invariant |
| CalculatorMachine.Calculator.HandleClear | src/Calculator.ts:116-125 | the object moves as Clear says, from any state, and is valid afterwards |
| CalculatorMachine.Calculator.CalculateResult | src/Calculator.ts:127-149 | the object moves as CalculateResult says |
| CalculatorMachine.Calculator.Handle | src/Calculator.ts:25-56 | dispatching a button event to its handler moves the object as Step says and keeps the invariant |

## Left out

- DOM wiring: looking up the display and the buttons and registering the click listeners (src/Calculator.ts:10-57). This is browser I/O. Events are method calls here, and the display is a string field.
- The one-shot timer that blanks the display 1.5 s after bye (src/Calculator.ts:105-107). It is asynchronous and touches only the display. Clear does not cancel it. So after bye, then clear, then digits within 1.5 s, the real display goes blank while the calculator is on, and stays blank until the next redraw. The model has no such state. `Inv`, `StepInv`, `RunInv` and the "display equals currentInput" clauses describe the display only as far as the handlers set it, not after the timer fires.
- `parseFloat`, the floating-point arithmetic and `toString` (src/Calculator.ts:132-146). They sit behind the `Evaluator` parameter, so effects such as `Infinity` for a zero divisor or `NaN` for an unparsable operand are not modelled.
- The uniform distribution of `Math.random` (src/Calculator.ts:112). The draw is a parameter in [0, 1), and only which greeting it selects is modelled.
- A `null` button text: the listeners pass `textContent`, which the DOM types as possibly `null`. The model takes the button text as a string.
- String length: the source counts UTF-16 code units and the model counts Dafny characters. The two agree for the digit and operator buttons.
