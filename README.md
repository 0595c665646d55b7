# Design-pattern demonstrations, modelled in Dafny

This project models the sequential logic of twelve small C++ programs, each illustrating one
classic design pattern. Each program becomes one Dafny module, and the program's `main`
becomes a `Demo` member whose contract is the outcome the demonstration prints.

- `Command` (command.dfy): an air conditioner (`isOn`, `temperature`) and three commands with
  `execute`/`undo`. A remote keeps the commands on a stack, with the top as the last element
  of a sequence.
- `Interpreter` (interpreter.dfy): a variable context whose `get` default-inserts 0, and an
  expression tree of terminal, product and sum nodes.
- `Observer` (observer.dfy): a stock observable with a set of observers. `setStockCount`
  notifies every observer once, and only when the previous count was 0. Notifications are
  returned as a sequence of alerts. The iPhone and Samsung observables have identical bodies
  (observer-design-pattern.cpp:34-78 and 81-125), so one class `StocksObservable` models both.
- `Flyweight` (flyweight.dfy): the letter cache. It builds at most one `DocumentCharacter` per
  character and returns the same object on every later request. The characters announced by
  "Creating new Letter" are kept as a sequence.
- `FlyweightSingleton` (flyweight_singleton.dfy): the same factory reached through a single
  process-wide pointer, so every handle shares one cache.
- `Memento` (memento.dfy): an originator (height, width), immutable snapshots, and a
  caretaker stack whose `undo` returns `None` (NULL) when empty.
- `ChainOfResponsibility` (chain_of_responsibility.dfy): a message forwarded down a chain of
  log processors, as a function that returns the printed lines.
- `LibraryIterator` (iterator.dfy): a library that appends books, and an iterator over a
  private copy of the books.
- `Proxy` (proxy.dfy): an employee map behind a proxy that admits "ADMIN" to `create`, and
  "ADMIN" or "USER" to `get`.
- `Mediator` (mediator.dfy): an auction mediator that relays each bid to every other
  registered bidder.
- `Composite` (composite.dfy): a file/directory tree with `add` and a pre-order `ls`.
- `Decorator` (decorator.dfy): pizza prices, a crust plus fixed topping surcharges.
- `Wrappers` (wrappers.dfy): `Option`, `Result` and `Outcome`. They stand in for a NULL
  pointer and for a thrown `runtime_error`.

Objects that the C++ code mutates in place are Dafny classes whose methods state the new
state, except the composite tree (see "Left out"). Pure recursion becomes datatypes, functions and lemmas. Objects kept in a `std::set`
of pointers (observers, bidders), and letters returned by the flyweight, are compared by
reference. This matches the pointer identity the source relies on.

## Model

| member | source | states |
|---|---|---|
| `Command.AirConditioner.constructor` | behavioral-design-pattern/command-design-pattern.cpp:15 | a new air conditioner is off at 24 degrees |
| `Command.AirConditioner.TurnACOn` | behavioral-design-pattern/command-design-pattern.cpp:22-25 | sets `isOn`, temperature unchanged |
| `Command.AirConditioner.TurnACOff` | behavioral-design-pattern/command-design-pattern.cpp:33-36 | clears `isOn`, temperature unchanged |
| `Command.AirConditioner.SetTemperature` | behavioral-design-pattern/command-design-pattern.cpp:46-49 | stores the temperature, power flag unchanged |
| `Command.AirConditioner.GetTemperature` | behavioral-design-pattern/command-design-pattern.cpp:56-58 | returns the current temperature |
| `Command.NewSetTemperatureCommand` | behavioral-design-pattern/command-design-pattern.cpp:173-175 | the restore temperature is the one the air conditioner holds when the command is built |
| `Command.Executed` | behavioral-design-pattern/command-design-pattern.cpp:98-183 | execute of turn-on/turn-off sets/clears the power flag and keeps the temperature; execute of set-temperature stores the next temperature and keeps the power flag |
| `Command.Undone` | behavioral-design-pattern/command-design-pattern.cpp:108-192 | undo of turn-on/turn-off clears/sets the power flag and keeps the temperature; undo of set-temperature stores the recorded previous temperature and keeps the power flag |
| `Command.Execute` | behavioral-design-pattern/command-design-pattern.cpp:87-183 | the receiver's new state is `Executed(c, old state)`: on sets the flag, off clears it, set-temperature stores the next temperature |
| `Command.Undo` | behavioral-design-pattern/command-design-pattern.cpp:108-192 | the receiver's new state is `Undone(c, old state)`: on's undo switches off, off's undo switches on, set-temperature's undo stores the recorded previous temperature |
| `Command.TurnOnUndoAlwaysOff` | behavioral-design-pattern/command-design-pattern.cpp:98-110 | execute then undo of turn-on always ends off, so an air conditioner that was on beforehand is not restored |
| `Command.SetTemperatureUndoRestoresConstructionTime` | behavioral-design-pattern/command-design-pattern.cpp:173-192 | execute then undo resets the temperature to the construction-time value whatever the state at execute; a full round trip when that value was current |
| `Command.Remote.constructor` | behavioral-design-pattern/command-design-pattern.cpp:213-217 | a new remote has an empty stack |
| `Command.Remote.SetCommand` | behavioral-design-pattern/command-design-pattern.cpp:222-224 | pushes the command on top |
| `Command.Remote.PressButton` | behavioral-design-pattern/command-design-pattern.cpp:230-235 | executes the top command and keeps the stack; may change only the top command's receiver, so nothing changes on an empty stack |
| `Command.Remote.UndoButton` | behavioral-design-pattern/command-design-pattern.cpp:242-248 | undoes the top command and pops exactly it; an empty stack stays empty |
| `Command.Demo` | behavioral-design-pattern/command-design-pattern.cpp:260-270 | on, set 30, undo, undo ends off at 24 with an empty stack (undone last-in first-out) |
| `Interpreter.Lookup` | behavioral-design-pattern/interpreter-design-pattern.cpp:44-46 | the value `operator[]` reads: a stored value, or 0 for a name never put, so a non-zero read always comes from a stored value |
| `Interpreter.Touch` | behavioral-design-pattern/interpreter-design-pattern.cpp:44-46 | the default insertion of `operator[]` adds the name and changes what no name reads as |
| `Interpreter.Context.constructor` | behavioral-design-pattern/interpreter-design-pattern.cpp:24-26 | a new context is empty |
| `Interpreter.Context.Put` | behavioral-design-pattern/interpreter-design-pattern.cpp:34-36 | stores the value under the name, overwriting |
| `Interpreter.Context.Get` | behavioral-design-pattern/interpreter-design-pattern.cpp:44-46 | returns the stored value or 0, and default-inserts a missing name |
| `Interpreter.PutThenLookup` | behavioral-design-pattern/interpreter-design-pattern.cpp:34-46 | after `put(v, x)` the name `v` reads `x`, and every other name reads as before |
| `Interpreter.Eval` | behavioral-design-pattern/interpreter-design-pattern.cpp:83-139 | a terminal is its variable's value, a product and a sum combine the children's values; with only products and sums, all-zero variables give 0 and non-negative variables give a non-negative value |
| `Interpreter.EvalDependsOnlyOnVariables` | behavioral-design-pattern/interpreter-design-pattern.cpp:83-139 | two contexts that agree on an expression's variables give it the same value |
| `Interpreter.Interpret` | behavioral-design-pattern/interpreter-design-pattern.cpp:83-139 | a terminal is its variable's value, a product and a sum combine the children's values (`Eval`); the context gains the mentioned names and no name reads differently afterwards |
| `Interpreter.UnsetVariableDemo` | behavioral-design-pattern/interpreter-design-pattern.cpp:44-46 | a name never put reads 0, and reads 0 again after the insertion |
| `Interpreter.Demo` | behavioral-design-pattern/interpreter-design-pattern.cpp:150-169 | with num1..num4 = 2, 3, 4, 5, `(num1*num2)+(num3*num4)` is 26 |
| `Observer.AlertObserver.constructor` | behavioral-design-pattern/observer-design-pattern.cpp:134-136 | an observer keeps its channel and address |
| `Observer.AlertObserver.Update` | behavioral-design-pattern/observer-design-pattern.cpp:140-142 | the alert names this observer and the count the observable holds when it is read |
| `Observer.RecipientsMembership` | behavioral-design-pattern/observer-design-pattern.cpp:57-61 | an observer is among the recipients iff some alert is addressed to it |
| `Observer.BroadcastReachesEachObserverOnce` | behavioral-design-pattern/observer-design-pattern.cpp:57-61 | a broadcast has one alert per registered observer, alerts only registered observers, reaches each, and never alerts one twice |
| `Observer.StocksObservable.constructor` | behavioral-design-pattern/observer-design-pattern.cpp:41-44 | a new observable has no observers and count 0 |
| `Observer.StocksObservable.Add` | behavioral-design-pattern/observer-design-pattern.cpp:47-49 | set insertion, so adding twice is the same as adding once |
| `Observer.StocksObservable.Remove` | behavioral-design-pattern/observer-design-pattern.cpp:52-54 | set erasure, so removing an absent observer changes nothing |
| `Observer.StocksObservable.Notify` | behavioral-design-pattern/observer-design-pattern.cpp:57-61 | every registered observer is alerted exactly once, nobody else, each with the current count |
| `Observer.StocksObservable.SetStockCount` | behavioral-design-pattern/observer-design-pattern.cpp:64-72 | always stores the count; broadcasts the new count iff the previous count was 0, otherwise alerts nobody |
| `Observer.StocksObservable.GetStockCount` | behavioral-design-pattern/observer-design-pattern.cpp:75-77 | returns the stored count |
| `Observer.Demo` | behavioral-design-pattern/observer-design-pattern.cpp:163-182 | observers 1, 2 and 3 are each alerted once with 10 for the iPhone stock, and observer 3, registered with both stocks, is alerted once more with 5 for the Samsung stock |
| `Observer.ZeroTransitionDemo` | behavioral-design-pattern/observer-design-pattern.cpp:64-72 | setting 0 on 0 notifies, 0 to 3 notifies, 3 to 0 is silent |
| `Flyweight.DocumentCharacter.constructor` | structural-design-pattern/flyweight-design-pattern.cpp:37 | a letter keeps its character, font type and size |
| `Flyweight.LetterFactory.constructor` | structural-design-pattern/flyweight-design-pattern.cpp:80 | the cache starts empty, nothing announced |
| `Flyweight.LetterFactory.CreateLetter` | structural-design-pattern/flyweight-design-pattern.cpp:68-76 | a miss announces, builds one fresh letter from the arguments and files it under the character; a hit returns the filed letter unchanged and ignores font type and size; no entry is removed or altered; the cache invariant (each letter under its own character, each key announced once) is kept |
| `Flyweight.LetterFactory.CreatedCountsDistinctKeys` | structural-design-pattern/flyweight-design-pattern.cpp:68-76 | the number of announcements equals the number of distinct cached characters, no character is announced twice, and a character is cached iff it was announced |
| `Flyweight.Demo` | structural-design-pattern/flyweight-design-pattern.cpp:88-104 | t, h, a, t builds t, h, a only, and the fourth letter is the very object of the first |
| `FlyweightSingleton.Singleton.constructor` | structural-design-pattern/flyweight-design-pattern-with-singleton-concept.cpp:101 | static initialisation builds the one factory with an empty cache |
| `FlyweightSingleton.Singleton.GetLetterFactory` | structural-design-pattern/flyweight-design-pattern-with-singleton-concept.cpp:75-77 | every call returns the same factory |
| `FlyweightSingleton.FirstHandleRound` | structural-design-pattern/flyweight-design-pattern-with-singleton-concept.cpp:111-121 | t, h, a, t through the first handle builds t, h, a |
| `FlyweightSingleton.SecondHandleRound` | structural-design-pattern/flyweight-design-pattern-with-singleton-concept.cpp:126-136 | the second handle is the same factory, and t, h, i, s builds only i and s |
| `FlyweightSingleton.Demo` | structural-design-pattern/flyweight-design-pattern-with-singleton-concept.cpp:109-137 | both handles are one factory; constructions t, h, a then i, s |
| `Memento.Originator.constructor` | behavioral-design-pattern/momento-design-pattern.cpp:49 | starts with the given dimensions |
| `Memento.Originator.SetHeight` | behavioral-design-pattern/momento-design-pattern.cpp:55-57 | changes the height only |
| `Memento.Originator.SetWidth` | behavioral-design-pattern/momento-design-pattern.cpp:63-65 | changes the width only |
| `Memento.Originator.CreateMomento` | behavioral-design-pattern/momento-design-pattern.cpp:87-89 | the snapshot holds the current height and width |
| `Memento.Originator.RestoreMomento` | behavioral-design-pattern/momento-design-pattern.cpp:95-98 | both dimensions become the snapshot's |
| `Memento.CareTaker.constructor` | behavioral-design-pattern/momento-design-pattern.cpp:110-114 | a new history is empty |
| `Memento.CareTaker.AddMomento` | behavioral-design-pattern/momento-design-pattern.cpp:120-122 | pushes the snapshot |
| `Memento.CareTaker.Undo` | behavioral-design-pattern/momento-design-pattern.cpp:128-135 | returns and pops the most recent snapshot; on an empty history returns NULL and stays empty |
| `Memento.RestoreRoundTrip` | behavioral-design-pattern/momento-design-pattern.cpp:87-98 | restoring a snapshot taken earlier returns the originator to the captured state despite later changes |
| `Memento.Demo` | behavioral-design-pattern/momento-design-pattern.cpp:141-176 | states (25,15), (15,25), (50,50), then (15,25) and (25,15) after the two undos |
| `ChainOfResponsibility.Handles` | behavioral-design-pattern/chain-of-responsibility-design-pattern.cpp:44-134 | only a level processor prints a message itself, only for one of the levels 1-3, and then with that level's own prefix; the base processor always forwards |
| `ChainOfResponsibility.Prefix` | behavioral-design-pattern/chain-of-responsibility-design-pattern.cpp:67-129 | the printed prefix is "INFO ", "DEBUG " or "ERROR ", ending in the space before the message; empty only for the base processor |
| `ChainOfResponsibility.Log` | behavioral-design-pattern/chain-of-responsibility-design-pattern.cpp:44-134 | a processor of the message's level prints it, otherwise "going next" is printed and the next processor tries; at the end of the chain the message is dropped; never more lines than processors, and every line but the last is "going next" |
| `ChainOfResponsibility.HandlesOwnLevelOnly` | behavioral-design-pattern/chain-of-responsibility-design-pattern.cpp:65-134 | Info, Debug and Error processors handle exactly levels 1, 2 and 3; the base processor handles none |
| `ChainOfResponsibility.LogHandledByFirstMatch` | behavioral-design-pattern/chain-of-responsibility-design-pattern.cpp:44-134 | the first matching processor prints the message after one "going next" per processor before it, and no later processor sees it |
| `ChainOfResponsibility.LogDroppedWhenUnmatched` | behavioral-design-pattern/chain-of-responsibility-design-pattern.cpp:44-49 | an unmatched level produces chain-length-minus-one "going next" lines and is then dropped without error |
| `ChainOfResponsibility.DemoErrorMessage` | behavioral-design-pattern/chain-of-responsibility-design-pattern.cpp:145-149 | ERROR through Info, Debug, Error prints two "going next" lines then "ERROR get error" |
| `LibraryIterator.BookIterator.constructor` | behavioral-design-pattern/iterator-design-pattern.cpp:77-80 | starts at index 0 over its own copy of the books |
| `LibraryIterator.BookIterator.HasNext` | behavioral-design-pattern/iterator-design-pattern.cpp:87-89 | true iff the index is below the number of books |
| `LibraryIterator.BookIterator.Next` | behavioral-design-pattern/iterator-design-pattern.cpp:96-100 | returns the book at the index and advances it by one |
| `LibraryIterator.Library.constructor` | behavioral-design-pattern/iterator-design-pattern.cpp:128-130 | a new library is empty |
| `LibraryIterator.Library.AddBook` | behavioral-design-pattern/iterator-design-pattern.cpp:146-148 | appends at the end |
| `LibraryIterator.Library.CreateIterator` | behavioral-design-pattern/iterator-design-pattern.cpp:137-139 | a fresh iterator at index 0 over the current books |
| `LibraryIterator.VisitAll` | behavioral-design-pattern/iterator-design-pattern.cpp:172-174 | looping while `hasNext` yields the remaining books, each once, in insertion order, and stops at the end |
| `LibraryIterator.SnapshotIsolation` | behavioral-design-pattern/iterator-design-pattern.cpp:77-78 | books added after `createIterator` are not visited by that iterator |
| `LibraryIterator.Demo` | behavioral-design-pattern/iterator-design-pattern.cpp:158-181 | visits book1..book4 in order |
| `Proxy.Find` | structural-design-pattern/proxy-design-pattern.cpp:59-64 | succeeds iff the id is stored, with the stored name; otherwise "No user found" |
| `Proxy.EmployeeDBImpl.constructor` | structural-design-pattern/proxy-design-pattern.cpp:49-51 | a new database is empty |
| `Proxy.EmployeeDBImpl.Create` | structural-design-pattern/proxy-design-pattern.cpp:54-56 | files the record under its id, overwriting; the client is ignored |
| `Proxy.EmployeeDBImpl.Get` | structural-design-pattern/proxy-design-pattern.cpp:59-64 | the stored name, or "No user found"; the client is ignored |
| `Proxy.FindAfterCreate` | structural-design-pattern/proxy-design-pattern.cpp:54-64 | after `create` the id yields the new name and other ids are unaffected |
| `Proxy.MayCreate` | structural-design-pattern/proxy-design-pattern.cpp:84 | only "ADMIN" may create; a plain "USER" may not |
| `Proxy.MayRead` | structural-design-pattern/proxy-design-pattern.cpp:93 | "ADMIN" and "USER" may read: every client that may create, plus plain users |
| `Proxy.EmployeeDBProxy.constructor` | structural-design-pattern/proxy-design-pattern.cpp:75 | the proxy owns a fresh, empty database |
| `Proxy.EmployeeDBProxy.Create` | structural-design-pattern/proxy-design-pattern.cpp:83-89 | forwards only for "ADMIN"; any other client gets "Access denied" and the database is unchanged |
| `Proxy.EmployeeDBProxy.Get` | structural-design-pattern/proxy-design-pattern.cpp:92-97 | forwards only for "ADMIN" or "USER"; other clients get "Access denied" before any lookup |
| `Proxy.Demo` | structural-design-pattern/proxy-design-pattern.cpp:100-122 | ADMIN creates (1, "Samyak") and USER reads back "Samyak" |
| `Proxy.GuestDemo` | structural-design-pattern/proxy-design-pattern.cpp:83-97 | another client is refused both operations and stores nothing |
| `Mediator.Bidder.constructor` | behavioral-design-pattern/mediator-design-pattern.cpp:31-33 | building a bidder registers it with its mediator |
| `Mediator.Bidder.PlaceBid` | behavioral-design-pattern/mediator-design-pattern.cpp:36-39 | the mediator tells every other registered bidder once, with this bidder's name and amount |
| `Mediator.AuctionMediator.constructor` | behavioral-design-pattern/mediator-design-pattern.cpp:58-60 | a new mediator has no bidders |
| `Mediator.AuctionMediator.AddBidder` | behavioral-design-pattern/mediator-design-pattern.cpp:63-65 | set insertion, so registering twice keeps one copy |
| `Mediator.AuctionMediator.PlaceBid` | behavioral-design-pattern/mediator-design-pattern.cpp:68-74 | every registered bidder except the sender is notified exactly once with the sender's name and amount; the sender never is; the bidder set is unchanged |
| `Mediator.Demo` | behavioral-design-pattern/mediator-design-pattern.cpp:78-103 | three registered bidders; each bid produces exactly two notifications |
| `Composite.Add` | structural-design-pattern/composite-design-pattern.cpp:55-81 | adding to a file fails with "Cannot add to a file"; adding to a directory keeps its name and children and appends the new child last |
| `Composite.Ls` | structural-design-pattern/composite-design-pattern.cpp:46-91 | a file lists its own "File: name" line; a directory lists its "Directory: name" line and then its children's listings in order; every listing starts with the component's own line |
| `Composite.LsAll` | structural-design-pattern/composite-design-pattern.cpp:86-91 | the children's listings one after another, at least one line per child, the first child's own line first |
| `Composite.LsLineCount` | structural-design-pattern/composite-design-pattern.cpp:46-91 | a listing has one line per node of the tree |
| `Composite.LsAllLineCount` | structural-design-pattern/composite-design-pattern.cpp:86-91 | the listing of a child sequence has one line per node of the children |
| `Composite.LsAllAppend` | structural-design-pattern/composite-design-pattern.cpp:86-91 | children are listed in insertion order, so one more child is listed last |
| `Composite.LsAfterAdd` | structural-design-pattern/composite-design-pattern.cpp:79-91 | after adding to a directory its listing is the old listing followed by the child's |
| `Composite.DemoListing` | structural-design-pattern/composite-design-pattern.cpp:105-124 | the listing is root, main.ts, src, app.ts in that order |
| `Decorator.Cost` | structural-design-pattern/decorator-design-pattern.cpp:21-56 | every pizza costs at least 100, and a topping strictly raises the cost of what it wraps |
| `Decorator.CostIsCrustPlusToppings` | structural-design-pattern/decorator-design-pattern.cpp:21-56 | cost is the crust's price plus 10 per Mushroom and 20 per Cheese |
| `Decorator.ToppingOrderIrrelevant` | structural-design-pattern/decorator-design-pattern.cpp:42-55 | same crust and same topping counts give the same cost, in any order |
| `Decorator.DemoCosts` | structural-design-pattern/decorator-design-pattern.cpp:59-76 | Thin Crust, +Mushroom, +Cheese cost 150, 160, 180 |

## Left out

- Console output is kept only where it carries meaning: chain lines, "Creating new Letter"
  announcements, observer alerts, bid notifications and `ls` lines. Its exact formatting
  (`" sent to "`, `display`) is not modelled.
- The bidder's own line "<name> placed a bid of <amount>" (mediator-design-pattern.cpp:37)
  is not modelled; only the notifications the mediator relays are returned.
- Memory management (`new`/`delete`, destructors, leaked objects) is not modelled.
- C++ `int` overflow in interpreter sums and products, decorator costs, temperatures and
  stock counts is not modelled; all of these are unbounded integers.
- The iteration order of `std::set<T*>` in `notify` and `placeBid` follows pointer
  addresses. The model picks observers and bidders in an unspecified order, and states only
  that each is reached exactly once.
- Composite: the tree is an acyclic value, so `Add` returns a new directory instead of
  changing one in place. Sharing a subtree between two parents, cycles, and changes to a
  directory after it was added elsewhere (visible through the pointer in C++) are not
  captured.
- Observer and bidder identity is object identity. Two observers with the same name are
  distinct, as distinct pointers are in C++.
- The static cache of the plain flyweight and the static singleton pointer are explicit
  objects built once. Static initialisation order is not modelled.
- `Momento::getHeight`/`getWidth`, `Originator::getHeight`/`getWidth`, `Book` getters,
  `Bidder::getName`, `receiveBidNotification` and `DocumentCharacter::display` are field
  reads or printing; the model reads the fields directly.
- `Memento.Originator.RestoreMomento`: the source takes a pointer, and `undo` on an empty
  history returns NULL, which `restoreMomento` would dereference (undefined behaviour).
  The model passes a snapshot value, so this case cannot be expressed.
- `LibraryIterator.BookIterator.Next`: the source reads past the end without a check
  (undefined behaviour), so the model requires `hasNext` to hold before the call.
- The strategy, template, visitor, bridge and adapter demonstrations are not part of this
  model. They only dispatch to methods that print fixed text, or, for the adapter, perform
  one floating-point conversion.
