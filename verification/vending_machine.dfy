/** The state pattern's vending machine: three states, three actions, and a
    handler per (state, action) pair that either calls `setState` or only
    prints a refusal. */
module VendingMachine {
  import opened Wrappers

  datatype State = WaitingForMoney | ProductSelected | DispensingProduct

  datatype Action = InsertMoney | SelectProduct | DispenseProduct

  /** A new machine starts waiting for money. */
  const Initial: State := WaitingForMoney

  /** `getStateName`: the display name each state object carries. */
  function Name(s: State): (r: string)
    ensures r == "Esperando Dinero" <==> s == WaitingForMoney
    ensures r == "Seleccionando Producto" <==> s == ProductSelected
    ensures r == "Despachando producto" <==> s == DispensingProduct
  {
    match s
    case WaitingForMoney => "Esperando Dinero"
    case ProductSelected => "Seleccionando Producto"
    case DispensingProduct => "Despachando producto"
  }

  /** The three valid transitions, as an explicit table. */
  const Transitions: map<(State, Action), State> :=
    map[(WaitingForMoney, InsertMoney) := ProductSelected,
        (ProductSelected, SelectProduct) := DispensingProduct,
        (DispensingProduct, DispenseProduct) := WaitingForMoney]

  /** The argument passed to `setState` by the current state's handler for
      the action, or None when the handler only prints a refusal. */
  function SetStateCall(s: State, a: Action): (r: Option<State>)
    ensures r.Some? <==> (s, a) in Transitions
    ensures r.Some? ==> r.value == Transitions[(s, a)]
  {
    match s
    case WaitingForMoney =>
      (match a
       case InsertMoney => Some(ProductSelected)
       case SelectProduct => None
       case DispenseProduct => None)
    case ProductSelected =>
      (match a
       case InsertMoney => None
       case SelectProduct => Some(DispensingProduct)
       case DispenseProduct => None)
    case DispensingProduct =>
      (match a
       case InsertMoney => None
       case SelectProduct => None
       case DispenseProduct => Some(WaitingForMoney))
  }

  /** The machine's state after one action: the state changes exactly on the
      three listed pairs and is left alone on the other six. */
  function Step(s: State, a: Action): (r: State)
    ensures (s, a) in Transitions ==> r == Transitions[(s, a)]
    ensures (s, a) !in Transitions ==> r == s
    ensures r != s <==> (s, a) in Transitions
  {
    match SetStateCall(s, a)
    case Some(next) => next
    case None => s
  }

  /** The state after a sequence of actions, applied left to right. */
  function Run(s: State, actions: seq<Action>): State
    decreases |actions|
  {
    if |actions| == 0 then s else Run(Step(s, actions[0]), actions[1..])
  }

  /** Running `a ++ b` is running `a` and then `b`. */
  lemma {:induction false} RunAppend(s: State, a: seq<Action>, b: seq<Action>)
    ensures Run(s, a + b) == Run(Run(s, a), b)
    decreases |a|
  {
    if |a| == 0 {
      assert a + b == b;
    } else {
      assert (a + b)[1..] == a[1..] + b;
      RunAppend(Step(s, a[0]), a[1..], b);
    }
  }

  /** The three state names are pairwise distinct, so the name identifies the state. */
  lemma NamesDistinct(s: State, t: State)
    ensures Name(s) == Name(t) <==> s == t
  {
  }

  /** The only action that moves the machine on from a given state. */
  function Expected(s: State): (a: Action)
    ensures Step(s, a) != s
    ensures forall b :: Step(s, b) != s ==> b == a
  {
    match s
    case WaitingForMoney => InsertMoney
    case ProductSelected => SelectProduct
    case DispensingProduct => DispenseProduct
  }

  /** One full purchase (insert, select, dispense) from any state in the
      cycle returns to that state: the table is a single three-cycle and
      there is no terminal state. */
  lemma PurchaseCycle(s: State)
    ensures var a := Expected(s);
      var b := Expected(Step(s, a));
      var c := Expected(Step(Step(s, a), b));
      Run(s, [a, b, c]) == s
  {
    var a := Expected(s);
    var b := Expected(Step(s, a));
    var c := Expected(Step(Step(s, a), b));
    RunOneByOne(s, [a, b, c]);
    match s
    case WaitingForMoney =>
    case ProductSelected =>
    case DispensingProduct =>
  }

  /** Unfolds `Run` over a short literal sequence of actions. */
  lemma RunOneByOne(s: State, actions: seq<Action>)
    requires |actions| <= 3
    ensures |actions| == 1 ==> Run(s, actions) == Step(s, actions[0])
    ensures |actions| == 2 ==> Run(s, actions) == Step(Step(s, actions[0]), actions[1])
    ensures |actions| == 3 ==> Run(s, actions) == Step(Step(Step(s, actions[0]), actions[1]), actions[2])
    decreases |actions|
  {
    if |actions| > 0 {
      RunOneByOne(Step(s, actions[0]), actions[1..]);
    }
  }

  /** Every state can reach every state. */
  lemma {:induction false} AllStatesReachable(s: State, t: State)
    ensures exists actions :: Run(s, actions) == t
  {
    var a := Expected(s);
    var s1 := Step(s, a);
    var b := Expected(s1);
    var s2 := Step(s1, b);
    if t == s {
      assert Run(s, []) == t;
    } else if t == s1 {
      RunOneByOne(s, [a]);
      assert Run(s, [a]) == t;
    } else {
      assert t == s2 by {
        match s
        case WaitingForMoney =>
        case ProductSelected =>
        case DispensingProduct =>
      }
      RunOneByOne(s, [a, b]);
      assert Run(s, [a, b]) == t;
    }
  }

  /** Starting from a new machine, selecting before paying is refused and
      the purchase cycle then runs to completion. */
  lemma {:induction false} PurchaseScenario()
    ensures Name(Initial) == "Esperando Dinero"
    ensures Step(Initial, SelectProduct) == WaitingForMoney
    ensures Step(Initial, InsertMoney) == ProductSelected
    ensures Step(ProductSelected, SelectProduct) == DispensingProduct
    ensures Step(DispensingProduct, DispenseProduct) == WaitingForMoney
    ensures Run(Initial, [SelectProduct, InsertMoney, SelectProduct, DispenseProduct]) == WaitingForMoney
  {
  }
}
