# Design-pattern toy examples, modelled in Dafny

This project models five of the small design-pattern examples of the
`design_patterns` repository and proves what each of them promises.

- **State** (`gumball.dfy`, module `GumballState`): the gumball machine. A
  context holds a ball count and one of five state objects (`NoQuarter`,
  `HasQuarter`, `OneBallWin`, `TwoBallWin`, `SoldOut`) and delegates insert,
  eject and turn to the current state; `turn_crank` then dispenses on the state
  the turn left. The context is the class `GumballMachine` with the fields
  `state` and `count`; each state action that does more than report is a method
  of that class, as the state objects act through their back-reference to the
  context. The setter and the two getters are specified on the fields directly;
  every other method is specified by a function on the pair (state, count), and
  the invariants are proved about those functions: the count never rises and
  never drops below zero from a non-negative start, `SoldOut` is terminal, and
  from a consistent machine a public operation always leaves it in `NoQuarter`,
  `HasQuarter` or `SoldOut`, with `SoldOut` exactly when the count is at most
  zero. The
  random draw of `HasQuarterState.turn_crank` is a parameter in `0..9`.
- **Command** (`command.dfy`, module `RemoteControl`): commands as values, their
  `execute` and `undo` as methods that append receiver events to a console, a
  macro that executes in list order and undoes in reverse, a one-button remote
  and a remote with arrays of on/off slots and an undo register. The reference
  for undo is `Inverse`: the opposite receiver action of every event, last event
  first; every command's undo is proved to be the inverse of its execute.
- **Observer** (`observer.dfy`, module `WeatherStation`): the `WeatherData`
  subject with its observer list (append, remove first occurrence, notify in
  order) and readings, and the `CurrentCondDisplay` observer that pulls
  temperature and humidity.
- **Template Method** (`template_method.dfy`, module `TemplateMethod`): the fixed
  skeleton `template_method` and the cache-or-compute `run` with its `finally`
  clean-up, as functions of what the subclass's steps do (their effects, the
  value they return, the exception they raise), returning a value or the
  exception that escapes, and the trace of calls. A step that raises in
  `template_method` ends it, since that skeleton has no `try`.
- **Factory** (`factory.dfy`, module `PizzaFactory`): the four pizza records,
  the `create_pizza` chains of the simple factory and the two factory-method
  stores, `order_pizza`, the two ingredient factories and the abstract-factory
  store.

The optional value the models share is `Option` in `wrappers.dfy` (module
`Wrappers`).

Where the code and the usual description of the machine differ, the model
follows the code:

- `GumballMachine.__init__` accepts any integer, and a count at most zero
  starts in `SoldOut` and stays there with the count unchanged, negative counts
  included. The model therefore keeps the count an `int` and states "sold out
  exactly when the count is at most zero".
- `set_state` is public and validates nothing, so a caller can put the machine
  in any state. The consistency of state and count is therefore proved as an
  invariant of the public operations (insert, eject, turn), not as a class
  invariant. The `assert curr_count > 0` of the single-win branch can fail only
  after a direct `set_state`, or after a direct call of a state object's action
  obtained through a `get_*_state` getter (for instance `turn_crank` of the
  HasQuarter state of a machine with no ball, or `insert_quarter` of the
  NoQuarter state of a machine with a negative count, then a turn); the model
  keeps that failure as an outcome (`AssertionFailed`) and proves when exactly
  it happens.

Errors the source raises are results here: `AssertionFailed` in the gumball
machine; `ok == false` from the remote-control and observer methods whose
`assert` can fail, and from the one-button remote's press without a command
(an `AttributeError` on `None`); `Raised(e)` in the template skeleton and the
cache computer; `Failure(e)` from the pizza stores' `create_pizza` and from the
abstract-factory store's order, and `OrderFailed(e)` from `OrderPizza`.

## Model

The methods of the three classes are specified by functions that the lemmas are
about. In `GumballState`, `Step` is one public operation on the pair (state,
count) and `Run` a sequence of them. `Step` is built from `Insert`, `Eject` and
`Cranked` (`Turn`, then `Dispensed`), which delegate to the state functions
`NoQuarterInsert`, `HasQuarterEject`, `HasQuarterTurn`, `OneBallWinDispensed` and
`TwoBallWinDispensed`. In `RemoteControl`, `Executed` and `Undone` give the
events of one command, and `ExecutedAll` and `UndoneAll` those of a macro's
list. In `WeatherStation`, `RemoveFirst` is `list.remove`.

| member | source | states |
|---|---|---|
| `GumballState.Init` | src/patterns/state.py:186-195 | a new machine has the given count; it is in NoQuarter exactly when the count is positive and in SoldOut exactly when it is at most zero, negative counts included |
| `GumballState.Release` | src/patterns/state.py:212-215 | releasing lowers the count by one only when it is positive, never below zero, and leaves a zero or negative count as it is |
| `GumballState.GumballMachine.constructor` | src/patterns/state.py:186-195 | the constructed context's state and count are those of `Init` |
| `GumballState.GumballMachine.SetState` | src/patterns/state.py:207-209 | replaces the current state and leaves the count |
| `GumballState.GumballMachine.ReleaseOneBall` | src/patterns/state.py:212-215 | the new count is `Release` of the old one; the state is unchanged |
| `GumballState.GumballMachine.GetCount` | src/patterns/state.py:217-218 | returns the count |
| `GumballState.GumballMachine.GetState` | src/patterns/state.py:220-221 | returns the current state |
| `GumballState.GumballMachine.NoQuarterInsertQuarter` | src/patterns/state.py:83-87 | moves to HasQuarter and, with a count of exactly zero, ejects again through the context |
| `GumballState.GumballMachine.HasQuarterEjectQuarter` | src/patterns/state.py:105-106 | moves to NoQuarter |
| `GumballState.GumballMachine.HasQuarterTurnCrank` | src/patterns/state.py:108-118 | draw 0 with more than one ball moves to TwoBallWin; otherwise a positive count moves to OneBallWin and a count at most zero fails the assertion, leaving the machine unchanged |
| `GumballState.GumballMachine.OneBallWinDispense` | src/patterns/state.py:136-141 | one release, then NoQuarter if balls are left, else SoldOut |
| `GumballState.GumballMachine.TwoBallWinDispense` | src/patterns/state.py:156-162 | two releases in sequence, then NoQuarter if balls are left, else SoldOut |
| `GumballState.GumballMachine.InsertQuarter` | src/patterns/state.py:197-198 | delegates to the current state: only NoQuarter reacts; every other state only reports |
| `GumballState.GumballMachine.EjectQuarter` | src/patterns/state.py:200-201 | delegates to the current state: only HasQuarter reacts |
| `GumballState.GumballMachine.Dispense` | src/patterns/state.py:137-162 | the current state's dispense: only the two win states release balls |
| `GumballState.GumballMachine.TurnCrank` | src/patterns/state.py:203-205 | turns, then dispenses on the state the turn left; when the turn raises, dispense does not run and nothing changes |
| `GumballState.InitConsistent` | src/patterns/state.py:195 | a new machine is consistent: it rests, and is sold out exactly when its count is at most zero |
| `GumballState.StepCountMonotone` | src/patterns/state.py:212-215 | no public operation raises the count, takes a non-negative count below zero, or changes a count at most zero |
| `GumballState.StepPreservesConsistent` | src/patterns/state.py:83-162 | from a consistent machine every public operation succeeds and leaves it consistent, in NoQuarter, HasQuarter or SoldOut |
| `GumballState.TurnCrankFailsExactly` | src/patterns/state.py:110-118 | a crank raises exactly when the machine has a quarter and no ball, which a consistent machine never has |
| `GumballState.SoldOutTerminal` | src/patterns/state.py:164-178 | in SoldOut every action leaves both the state and the count unchanged |
| `GumballState.TwoBallWinOnlyWithTwoBalls` | src/patterns/state.py:110-114 | a turn enters TwoBallWin if and only if the machine has a quarter, the draw is 0 and more than one ball is left |
| `GumballState.CrankFromHasQuarter` | src/patterns/state.py:108-162 | a full crank from HasQuarter with n ≥ 1 balls leaves n−2 balls for draw 0 with n ≥ 2 and n−1 otherwise, then NoQuarter if balls are left, else SoldOut |
| `GumballState.IgnoredActions` | src/patterns/state.py:102-154 | in HasQuarter eject returns to NoQuarter and insert changes nothing; the win states ignore insert, eject and turn |
| `GumballState.InsertIntoEmptyEjects` | src/patterns/state.py:83-87 | insert in NoQuarter with no ball left has no net effect; with balls left it moves to HasQuarter |
| `GumballState.InsertTwice` | src/patterns/state.py:102-103 | a second insert right after the first changes nothing |
| `GumballState.RunPreservesConsistent` | src/patterns/state.py:197-215 | every sequence of public operations from a consistent machine succeeds, stays consistent, never raises the count and never goes below zero from a non-negative start |
| `GumballState.RunFromSoldOut` | src/patterns/state.py:164-178 | no sequence of actions leaves SoldOut or changes the count |
| `GumballState.RunAppend` | src/patterns/state.py:197-205 | running two sequences of operations in turn is running their concatenation |
| `GumballState.TwoBallScenario` | src/patterns/state.py:136-141 | two balls: insert and a crank without the double win leave one ball in NoQuarter; a second round leaves none, in SoldOut |
| `GumballState.OneBallScenario` | src/patterns/state.py:110-118 | one ball: whatever the draw the turn gives a single win, and the crank ends in SoldOut with no ball |
| `GumballState.ConsistentUse` | src/patterns/state.py:295-299 | a machine driven only through insert and turn, as the demo loop does, stays consistent and never gains balls |
| `RemoteControl.Inverse` | src/patterns/command.py:132-150 | the inverse of a trace has its length and holds at each position the opposite of the event at the mirrored position |
| `RemoteControl.UndoInvertsExecute` | src/patterns/command.py:79-168 | for every command, undo reports exactly the opposite actions of execute, last first: nothing for NoCommand, one opposite switch for the light commands, the two garage-door steps reversed, and a macro's undos in reverse order |
| `RemoteControl.UndoAllInvertsExecuteAll` | src/patterns/command.py:162-168 | undoing a macro's list from the back is the inverse of executing it from the front |
| `RemoteControl.ExecuteInvertsUndo` | src/patterns/command.py:99-150 | execute is also the inverse of undo |
| `RemoteControl.ExecutedAllSnoc` | src/patterns/command.py:162-164 | a command appended to a macro executes last |
| `RemoteControl.UndoneAllSnoc` | src/patterns/command.py:166-168 | a command appended to a macro is undone first |
| `RemoteControl.Execute` | src/patterns/command.py:79-150 | a command's execute appends exactly its receiver events to the console |
| `RemoteControl.ExecuteMacro` | src/patterns/command.py:162-164 | the macro executes each command of its list once, in list order |
| `RemoteControl.Undo` | src/patterns/command.py:85-150 | a command's undo appends exactly its undo events to the console |
| `RemoteControl.UndoMacro` | src/patterns/command.py:166-168 | the macro undoes each command of its list once, from the last to the first |
| `RemoteControl.SimpleRemoteControl.constructor` | src/patterns/command.py:177-180 | the remote holds the given command or none |
| `RemoteControl.SimpleRemoteControl.SetCommand` | src/patterns/command.py:182-184 | the remote holds the new command |
| `RemoteControl.SimpleRemoteControl.ButtonWasPressed` | src/patterns/command.py:186-187 | executes the held command; without one the press fails and reports nothing |
| `RemoteControl.RemoteControlWithUndo.constructor` | src/patterns/command.py:191-201 | n on-slots and n off-slots (none for n ≤ 0), all NoCommand, and NoCommand in the undo register |
| `RemoteControl.RemoteControlWithUndo.SetCommand` | src/patterns/command.py:203-210 | fails for a slot at or beyond the number of slots; otherwise replaces that slot's on and off commands and leaves every other slot |
| `RemoteControl.RemoteControlWithUndo.OnButtonWasPushed` | src/patterns/command.py:212-217 | executes the slot's on command and puts that same command in the undo register; an out-of-range slot changes nothing |
| `RemoteControl.RemoteControlWithUndo.OffButtonWasPushed` | src/patterns/command.py:219-224 | executes the slot's off command and puts that same command in the undo register; an out-of-range slot changes nothing |
| `RemoteControl.RemoteControlWithUndo.UndoButtonWasPushed` | src/patterns/command.py:226-228 | undoes the registered command and keeps it registered, so repeated undos repeat the same undo |
| `RemoteControl.PushThenUndo` | src/patterns/command.py:212-228 | an on push followed by undo reports the command's events followed by their inverse |
| `WeatherStation.Notified` | src/patterns/observer.py:68-70 | a notification prints one line per registered entry, in registration order, each with the subject's readings |
| `WeatherStation.RemoveFirstAt` | src/patterns/observer.py:64-66 | removing the value whose first occurrence is at k keeps every entry before and after k, in order |
| `WeatherStation.RemoveFirstSpec` | src/patterns/observer.py:64-66 | removing a registered value removes exactly its first occurrence and one entry |
| `WeatherStation.WeatherData.constructor` | src/patterns/observer.py:46-50 | the readings are the given ones (0 by default) and no observer is registered |
| `WeatherStation.WeatherData.GetTemp` | src/patterns/observer.py:52-53 | returns the temperature |
| `WeatherStation.WeatherData.GetHumidity` | src/patterns/observer.py:55-56 | returns the humidity |
| `WeatherStation.WeatherData.GetPressure` | src/patterns/observer.py:58-59 | returns the pressure |
| `WeatherStation.WeatherData.RegisterObserver` | src/patterns/observer.py:61-62 | appends the observer at the end, duplicates allowed; the readings are unchanged |
| `WeatherStation.WeatherData.RemoveObserver` | src/patterns/observer.py:64-66 | fails exactly when the observer is not registered; otherwise removes its first occurrence only |
| `WeatherStation.WeatherData.NotifyObservers` | src/patterns/observer.py:68-70 | updates every registered display once, in registration order, so that each holds the subject's temperature and humidity |
| `WeatherStation.WeatherData.SetMeasurements` | src/patterns/observer.py:72-76 | stores all three readings, then notifies: every registered display then holds the new temperature and humidity |
| `WeatherStation.CurrentCondDisplay.constructor` | src/patterns/observer.py:81-83 | the display starts with the given readings (0 by default) |
| `WeatherStation.CurrentCondDisplay.Update` | src/patterns/observer.py:85-90 | copies the subject's temperature and humidity, then prints them |
| `TemplateMethod.DefaultHook` | src/patterns/template_method.py:52-57 | the default hook has no effect and raises nothing |
| `TemplateMethod.ConcreteEffects` | src/patterns/template_method.py:49-50 | the shared concrete operation has no effect beyond its message and raises nothing |
| `TemplateMethod.RunSteps` | src/patterns/template_method.py:31-35 | a body of plain calls without a try calls its steps in order up to and including the first that raises, whose exception escapes; without an exception it calls every step |
| `TemplateMethod.Template` | src/patterns/template_method.py:31-35 | template_method calls a non-empty prefix of operation1, operation2, the concrete operation and the hook, in that order, and raises exactly when one of the subclass's steps raises |
| `TemplateMethod.TemplateOrder` | src/patterns/template_method.py:31-35 | when no step raises, the skeleton runs operation1, operation2, the concrete operation and the hook in that order, each exactly once, and its effects are theirs in that order |
| `TemplateMethod.TemplateStopsAtRaise` | src/patterns/template_method.py:31-35 | an exception from operation1 ends the skeleton after it, one from operation2 after the first two steps, and one from the hook after all four; that exception escapes |
| `TemplateMethod.TemplateWithDefaultHook` | src/patterns/template_method.py:52-57 | with the default hook only the two abstract operations have effects |
| `TemplateMethod.DefaultCleanUp` | src/patterns/template_method.py:98-102 | the default clean-up raises nothing |
| `TemplateMethod.TryLoad` | src/patterns/template_method.py:70-75 | the try/except calls load_cache first and compute only after a CacheError; a returned value was loaded, or computed and written without error; an escaping exception is load_cache's other error, or compute's, or write_cache's |
| `TemplateMethod.Run` | src/patterns/template_method.py:66-78 | every run starts with load_cache and ends with exactly one clean_up; compute runs exactly when load_cache raised CacheError; an exception from clean_up replaces whatever the try/except produced, and without one the try/except's result is returned |
| `TemplateMethod.CacheHit` | src/patterns/template_method.py:70-72 | a successful load returns the loaded value, and neither compute nor write_cache is called |
| `TemplateMethod.CacheMiss` | src/patterns/template_method.py:73-75 | on CacheError compute runs once, and its result is both written to the cache and returned |
| `TemplateMethod.ErrorsPropagate` | src/patterns/template_method.py:71-77 | errors other than CacheError from load_cache, and any error from compute or write_cache, propagate after clean_up |
| `TemplateMethod.ReturnedValueOrigin` | src/patterns/template_method.py:66-78 | a returned value was either loaded, or computed after a cache miss and written, and clean_up did not raise |
| `PizzaFactory.NewPizza` | src/patterns/factory.py:24-30 | a new pizza has the given name, dough and sauce, and the given toppings or none |
| `PizzaFactory.CheesePizza` | src/patterns/factory.py:55-58 | the cheese pizza is named "cheese pizza", has regular crust and two toppings |
| `PizzaFactory.ClamPizza` | src/patterns/factory.py:60-63 | the clam pizza is named "clam pizza", has thin crust and two toppings |
| `PizzaFactory.PepperoniPizza` | src/patterns/factory.py:65-68 | the pepperoni pizza is named "pepperoni pizza", has plain crust and three toppings |
| `PizzaFactory.VeggiePizza` | src/patterns/factory.py:70-74 | the veggie pizza is named "veggie pizza", has plain crust and six toppings |
| `PizzaFactory.ConcretePizzasDistinct` | src/patterns/factory.py:55-74 | the four concrete pizzas are four different records |
| `PizzaFactory.Menu` | src/patterns/factory.py:84-97 | the menu table has exactly the four pizza types |
| `PizzaFactory.CreateByChain` | src/patterns/factory.py:84-97 | the create_pizza if-chain is a lookup in the menu: it succeeds exactly for a menu type, with the menu's pizza, and otherwise fails with the cannot-be-made error naming the string |
| `PizzaFactory.SimpleCreatePizza` | src/patterns/factory.py:84-97 | the simple factory accepts exactly 'cheese', 'pepperoni', 'clam' and 'veggie', gives the pizza named after the type, and fails naming any other string |
| `PizzaFactory.NYFmCreatePizza` | src/patterns/factory.py:146-159 | the NY factory-method store accepts exactly the four types, gives the pizza named after the type, and fails naming any other string |
| `PizzaFactory.ChicagoFmCreatePizza` | src/patterns/factory.py:164-177 | the Chicago factory-method store accepts exactly the four types, gives the pizza named after the type, and fails naming any other string |
| `PizzaFactory.StoresAgreeWithSimpleFactory` | src/patterns/factory.py:146-177 | the NY and Chicago factory-method stores map every type as the simple factory does |
| `PizzaFactory.CreatePizza` | src/patterns/factory.py:130-131 | the create_pizza each store's order_pizza calls gives, for every store and type, what the simple factory gives |
| `PizzaFactory.OrderPizza` | src/patterns/factory.py:130-137 | an order succeeds exactly when create_pizza does, and then returns that very pizza after prepare, bake, cut and box; otherwise it fails with create_pizza's error |
| `PizzaFactory.OrderFromMenu` | src/patterns/factory.py:107-114 | every store orders the menu pizza of a menu type and fails naming any other type |
| `PizzaFactory.CreateDough` | src/patterns/factory.py:242-253 | a factory gives thin crust dough exactly when it is the NY factory, thick crust otherwise |
| `PizzaFactory.CreateClam` | src/patterns/factory.py:242-256 | a factory gives fresh clams exactly when it is the NY factory, frozen clams otherwise |
| `PizzaFactory.IngredientFamilies` | src/patterns/factory.py:242-256 | the two ingredients of a factory come from the same region: thin crust with fresh clams, thick crust with frozen clams |
| `PizzaFactory.NYAfCreatePizza` | src/patterns/factory.py:274-281 | the abstract-factory store accepts only 'clam' and builds it with the NY ingredients; every other type fails |
| `PizzaFactory.NYAfOrderPizza` | src/patterns/factory.py:261-268 | no order from the abstract-factory store succeeds: 'clam' fails when prepare asks for the unset name, every other type fails at create |

## Left out

- Console output: every message is left out. The receivers of the Command
  example and the display of the Observer example report events to a console
  object; the gumball machine's reports, the template steps' messages and the
  pizza stages' messages carry no data and are not modelled beyond the stage
  list of an order.
- The five state objects are tags of a datatype, not objects with a
  back-reference; the getters `get_no_quarter_state` and the like are therefore
  not separate operations. Calling a state object's action while another state is
  current is covered only for the actions that the context's methods model.
- `HasQuarterState.turn_crank`: the numpy random draw is a parameter in `0..9`.
- `isinstance` assertions are expressed by Dafny's types.
- The `__main__`/`Main` demo drivers and the `__str__` methods; only the shape
  of the gumball demo loop is kept, in `GumballState.ConsistentUse`.
- `RemoteControl.RemoteControlWithUndo.SetCommand`: slots are natural numbers, so
  Python's wrap-around for negative slot numbers (the source checks only the
  upper bound) is not modelled; the same holds for the two button methods.
- Commands are values: `set_light` and `set_garage_door`, which rebind a
  command's receiver after construction, and the aliasing of a macro's list
  with the caller's (the macro keeps the list itself, not a copy) are not
  modelled. `GarageDoor.stop` is never called by a command and is left out.
- Observer: the readings are integers (the demo passes a float pressure), only
  `CurrentCondDisplay` is an observer, and removal compares observers by
  identity, which is what `list.remove` does for objects without `__eq__`.
- The ingredients' `to_string` texts; `AfClamPizza.prepare` discards its
  ingredients and is modelled only as the failure it runs into.
- The files for the Decorator, Strategy, Adapter, Composite and Facade examples
  are not part of this model: they hold float price arithmetic, print-only
  delegation, methods that only raise `NotImplementedError`, and (for the
  Facade) a file that does not parse.
