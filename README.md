# Design-pattern examples, modelled in Dafny

This project models the object-oriented design-pattern examples of the Python repository
`python-oop-design-patterns-and-best-practices`. Each example gets its own module:

- **Creational**
  - Prototype (shallow and deep cloning of a cyclic object graph)
  - Builder
  - the metaclass Singleton with its registry and `reset`
  - the `__new__` Singleton with its shared class-level `config`
  - Factory Method logistics
  - Abstract Factory logistics
- **Structural**
  - Flyweight character cache
  - Composite file system
  - Proxy bank account
  - Decorator notifications
  - Facade video streaming
- **Behavioural**
  - State (user account)
  - Memento (text editor)
  - Command (order invoker)
  - Observer (shared observer list)
  - Chain of Responsibility
  - Iterator (book collection)
  - Mediator (chat room)
  - Template Method (user actions)

How the Python becomes Dafny:

- **Mutable objects become classes.** Classes that change fields in place are Dafny classes with `modifies` clauses. The dictionaries and lists they mutate are `seq` or `map` fields that the methods reassign. A dictionary that several objects share is its own heap object: the prototype's attribute dictionary, the observer list and the singleton's `config`.
- **Stateless code becomes functions.** This covers stateless dispatch and rendering: chain handling, directory display, notification decorators, template, facade and factories.
- **Printing becomes returned lines.** Each `print` is modelled as a line returned in a sequence.
- **Exceptions become error values.** An exception the code raises is an `Err`/`Fail` value that names the Python exception, from module `Wrappers`.
- **`str` of an integer is `PyText.IntToString`.** It is proved injective and invertible.

Shared modules:

- `Wrappers` (file `wrappers.dfy`) holds `Option`, `Result`, `Outcome` and `PyError`.
- `PyText` (file `pytext.dfy`) holds the decimal rendering of integers.

Two facts about the prototype's clones follow from the code alone:

- **Prototype shallow clone.** `__copy__` first makes one-level copies of the list and the node, but `new.__dict__.update(self.__dict__)` (`src/oop/patterns/creational/prototype/prototype.py:70`) then overwrites them with the source's own attributes. So the shallow clone shares the source's list and node, which the tests confirm.
- **Prototype deep clone.** Tracing `copy.deepcopy`'s memo shows that the clone's node points at a *second* new component, and that component shares the clone's attribute dictionary. `Prototype.DeepClone` proves this form, and only the cycle identities the tests check.

## Model

| member | source | states |
|---|---|---|
| PyText.NatToString | oop/patterns/behavioral/observer.py:144 | the decimal rendering of a natural is non-empty, all digits, and starts with '0' exactly for zero |
| PyText.IntToString | oop/patterns/creational/builder/builder.py:14 | the rendering of an integer is non-empty, starts with '-' exactly for negatives, and is all digits otherwise |
| PyText.NatToStringRoundTrip | oop/patterns/behavioral/observer.py:144 | reading back the digits of a natural's rendering gives the natural |
| PyText.IntToStringRoundTrip | oop/patterns/creational/builder/builder.py:14 | parsing an integer's rendering gives the integer back |
| PyText.IntToStringInjective | oop/patterns/creational/builder/builder.py:14 | different integers render differently |
| Prototype.Entity.constructor | src/oop/patterns/creational/prototype/prototype.py:23-25 | a new node has no parent |
| Prototype.Entity.SetParent | src/oop/patterns/creational/prototype/prototype.py:27-29 | `set_parent` sets the parent |
| Prototype.Component.constructor | src/oop/patterns/creational/prototype/prototype.py:35-44 | a new component has a new attribute dictionary holding the three arguments |
| Prototype.CopyList | src/oop/patterns/creational/prototype/prototype.py:64 | `copy.copy` of the list is a new list with the same elements |
| Prototype.CopyEntity | src/oop/patterns/creational/prototype/prototype.py:65 | `copy.copy` of the node is a new node with the same parent |
| Prototype.ShallowClone | src/oop/patterns/creational/prototype/prototype.py:54-72 | the shallow clone is a new object with its own dictionary, the same int, and the source's very list and node |
| Prototype.DeepCopyList | src/oop/patterns/creational/prototype/prototype.py:94 | the deep-copied list is new, of the same length; each int is kept and each nested set or list is a new object with the same contents; two positions hold the same copy exactly when they held the same original |
| Prototype.DeepClone | src/oop/patterns/creational/prototype/prototype.py:74-102 | the deep clone is new with a new dictionary, list and node; its list copies the source's by value; its node's parent is a new component that is not the clone but shares the clone's dictionary (so `clone.ref is clone.ref.parent.ref` and `clone.ref.parent is clone.ref.parent.ref.parent`); the result again meets `DeepClone`'s own precondition |
| Prototype.SampleComponent | tests/oop/patterns/creational/prototype/test_prototype.py:23-39 | the tests' graph: int 23, list `[1, {1, 2, 3}, [1, 2, 3]]`, node whose parent is the component |
| Prototype.ShallowCloneScenario | tests/oop/patterns/creational/prototype/test_prototype.py:62-94 | after cloning and then mutating the source, the clone keeps int 23 but sees the new list element, the set addition and the list append, and its cycle runs through the source |
| Prototype.DeepCloneScenario | tests/oop/patterns/creational/prototype/test_prototype.py:96-128 | after deep cloning and then mutating the source, the clone sees none of the mutations and both cycle identities hold, with the node's parent not the clone |
| AccountState.Message | oop/patterns/behavioral/state.py:22-67 | the line each state object prints for each action; no contract of its own, `MessageInjective` states that the nine lines differ |
| AccountState.Next | oop/patterns/behavioral/state.py:81-97 | activation changes only an inactive account (to active); suspension changes only an active one (to suspended); deactivation always ends inactive |
| AccountState.MessageInjective | oop/patterns/behavioral/state.py:25-67 | the printed line determines both the state and the action |
| AccountState.Transcript | oop/patterns/behavioral/state.py:81-97 | one printed line per action |
| AccountState.Run | oop/patterns/behavioral/state.py:81-97 | the state after a sequence of actions; no contract of its own, `InactiveOnlyByDeactivate` and `SuspendedOnlyBySuspend` are about it |
| AccountState.InactiveOnlyByDeactivate | oop/patterns/behavioral/state.py:93-97 | an account that was not inactive becomes inactive only if `deactivate` was among the actions |
| AccountState.SuspendedOnlyBySuspend | oop/patterns/behavioral/state.py:87-91 | an account that was not suspended becomes suspended only if `suspend` was among the actions |
| AccountState.SuspensionIsPermanentWithoutDeactivate | oop/patterns/behavioral/state.py:81-85 | without `deactivate`, a suspended account stays suspended whatever else happens |
| AccountState.UserAccount.constructor | oop/patterns/behavioral/state.py:73-75 | a new account is active |
| AccountState.UserAccount.Activate | oop/patterns/behavioral/state.py:81-85 | prints the current state's activate line and moves to `Next(state, Activate)` |
| AccountState.UserAccount.Suspend | oop/patterns/behavioral/state.py:87-91 | prints the current state's suspend line and moves to `Next(state, Suspend)` |
| AccountState.UserAccount.Deactivate | oop/patterns/behavioral/state.py:93-97 | prints the current state's deactivate line and moves to `Next(state, Deactivate)` |
| AccountState.Replay | oop/patterns/behavioral/state.py:81-97 | a sequence of actions prints `Transcript` and ends in `Run` of the starting state |
| AccountState.SuspendThenActivateScenario | tests/oop/patterns/behavioral/test_state.py:28-33 | suspend then activate prints "Suspending the account." and "Activating the suspended account." and stays suspended |
| AccountState.DeactivateTwiceScenario | tests/oop/patterns/behavioral/test_state.py:48-53 | deactivating twice ends inactive, the second time printing "The account is already inactive." |
| AccountState.SuspendInactiveScenario | tests/oop/patterns/behavioral/test_state.py:55-59 | suspending an inactive account prints "Cannot suspend an inactive account." and changes nothing |
| Memento.TextEditor.constructor | src/oop/patterns/behavioral/memento.py:19-22 | a new editor has empty text and no snapshots |
| Memento.TextEditor.Type | src/oop/patterns/behavioral/memento.py:24-30 | appends to the text, leaves the snapshots, keeps every snapshot a prefix of the text |
| Memento.TextEditor.Save | src/oop/patterns/behavioral/memento.py:32-34 | pushes a snapshot of the current text, which is unchanged |
| Memento.TextEditor.Undo | src/oop/patterns/behavioral/memento.py:36-52 | with no snapshots: prints "No states to undo.", returns None, changes nothing; otherwise pops one snapshot, and the text becomes the new top's state or "" and is returned; the text only ever shrinks to a prefix |
| Memento.TextEditor.GetText | src/oop/patterns/behavioral/memento.py:54-60 | returns the current text |
| Memento.MultipleUndoScenario | tests/oop/patterns/behavioral/test_memento.py:40-53 | type/save twice then undo: "Hello, ", then "", then nothing to undo |
| Memento.UndoLastStateScenario | tests/oop/patterns/behavioral/test_memento.py:26-32 | undo after one save and more typing goes back to "" |
| Command.Execute | oop/patterns/behavioral/command.py:36-53 | a place command places the order and a cancel command cancels it; no contract of its own, `UndoIsOppositeExecute` relates it to `Undo` |
| Command.Undo | oop/patterns/behavioral/command.py:40-57 | undoing prints the opposite action; no contract of its own, `UndoIsOppositeExecute` states it |
| Command.Opposite | oop/patterns/behavioral/command.py:30-57 | the opposite command differs from the command |
| Command.UndoIsOppositeExecute | oop/patterns/behavioral/command.py:30-57 | undoing a command prints what executing its opposite prints and never what executing it prints; the opposite of the opposite is the command |
| Command.OrderInvoker.constructor | oop/patterns/behavioral/command.py:63-65 | both stacks start empty |
| Command.OrderInvoker.SetCommand | oop/patterns/behavioral/command.py:67-69 | appends to the pending commands; the history is unchanged |
| Command.OrderInvoker.PressButton | oop/patterns/behavioral/command.py:71-76 | nothing pending: nothing happens; otherwise the most recent command is popped, executed and pushed on the history; the total number held is preserved |
| Command.OrderInvoker.PressUndo | oop/patterns/behavioral/command.py:78-82 | empty history: nothing happens; otherwise the last executed command is popped and undone, and not re-queued |
| Command.UndoScenario | tests/oop/patterns/behavioral/test_command.py:36-49 | place, cancel, undo, undo prints placed, canceled, placed, canceled and empties both stacks |
| Command.LifoScenario | oop/patterns/behavioral/command.py:71-76 | two commands set together run last-in first-out |
| Observer.ConcreteObserver.constructor | oop/patterns/behavioral/observer.py:132-135 | a new observer has the name and subject state 0 |
| Observer.DisplayLine | oop/patterns/behavioral/observer.py:142-144 | the line `display_state` prints, with the state in decimal; no contract of its own |
| Observer.ConcreteObserver.Update | oop/patterns/behavioral/observer.py:137-144 | the observer takes the subject's state and prints it under its name |
| Observer.NotifyLines | oop/patterns/behavioral/observer.py:100-103 | one line per listed observer, each that observer's display line |
| Observer.RemoveFirst | oop/patterns/behavioral/observer.py:96-98 | `list.remove` of a present observer: one fewer entry, nothing new, and every other observer kept; which entry goes is stated by `RemoveFirstDropsFirstOccurrence` |
| Observer.RemoveFirstDropsFirstOccurrence | oop/patterns/behavioral/observer.py:96-98 | removal takes out the first occurrence: the observers before it (none of them the removed one) and after it stay, in order |
| Observer.RemoveFirstKeepsNoDuplicates | oop/patterns/behavioral/observer.py:90-98 | in a list without duplicates, removal takes the observer out entirely and leaves no duplicates |
| Observer.Registry.constructor | oop/patterns/behavioral/observer.py:85 | the shared observer list starts empty |
| Observer.ConcreteSubject.constructor | oop/patterns/behavioral/observer.py:86 | a new subject has state 0 and uses the shared list |
| Observer.ConcreteSubject.Attach | oop/patterns/behavioral/observer.py:88-94 | an attached observer is left alone; a new one is appended and immediately updated to the subject's state; no duplicates arise |
| Observer.ConcreteSubject.Detach | oop/patterns/behavioral/observer.py:96-98 | succeeds exactly when the observer is listed, taking out its first occurrence and keeping the others in order; otherwise `ValueError` and no change |
| Observer.ConcreteSubject.Notify | oop/patterns/behavioral/observer.py:100-103 | every listed observer ends with the subject's state, printing `NotifyLines` in list order |
| Observer.ConcreteSubject.ChangeState | oop/patterns/behavioral/observer.py:105-108 | sets the state, and every attached observer then holds it |
| Observer.ConcreteSubject.GetState | oop/patterns/behavioral/observer.py:110-112 | returns the state |
| Observer.NotifyLinesAppend | oop/patterns/behavioral/observer.py:102-103 | notification lines of a longer list extend those of the shorter |
| Observer.DetachScenario | tests/oop/patterns/behavioral/test_observer.py:54-72 | both see 30; after detaching the first, it keeps 30 while the second sees 40 |
| Observer.ReattachScenario | tests/oop/patterns/behavioral/test_observer.py:74-90 | a detached observer keeps 0 while the other sees 50; reattached it gets 50 at once and then 60 |
| Observer.DetachAbsentScenario | oop/patterns/behavioral/observer.py:96-98 | detaching an observer that is not attached raises `ValueError` |
| Observer.SharedListScenario | oop/patterns/behavioral/observer.py:85-94 | an observer attached through one subject is notified by another subject's change, since the list is shared |
| Flyweight.Character.constructor | src/oop/patterns/structural/flyweight.py:7-10 | stores the three attributes |
| Flyweight.Character.Display | src/oop/patterns/structural/flyweight.py:12-14 | the line showing the character, its font and its colour; no contract of its own |
| Flyweight.CharacterFactory.constructor | src/oop/patterns/structural/flyweight.py:20-21 | the cache starts empty |
| Flyweight.CharacterFactory.GetCharacter | src/oop/patterns/structural/flyweight.py:23-28 | returns the cached character for the key, with the requested attributes; a hit leaves the cache unchanged; a miss adds exactly one new character |
| Flyweight.DistinctKeysDistinctCharacters | src/oop/patterns/structural/flyweight.py:25-28 | different keys are cached as different objects |
| Flyweight.DisplayScenario | tests/oop/patterns/structural/test_flyweight.py:14-20 | displays "Character: A, Font: Arial, Color: Red" |
| Flyweight.SharingScenario | tests/oop/patterns/structural/test_flyweight.py:22-30 | the same key gives the same object, another key another, and two entries are cached |
| Chain.Accepts | src/oop/patterns/behavioral/chain.py:66-128 | the one request each concrete handler answers; the bare `AbstractHandler` answers none |
| Chain.ClassName | src/oop/patterns/behavioral/chain.py:73-128 | the class name that prefixes each handler's answer; no contract of its own |
| Chain.Answer | src/oop/patterns/behavioral/chain.py:85-128 | "<Name>: Handling <request>"; no contract of its own |
| Chain.FirstAnswer | src/oop/patterns/behavioral/chain.py:66-128 | reference definition of the chain's answer; no contract of its own, `FirstAnswerIsFirstMatch` characterises it and `Handler.Handle` is proved equal to it |
| Chain.Handler.constructor | src/oop/patterns/behavioral/chain.py:59 | a new handler has no successor |
| Chain.Handler.SetNext | src/oop/patterns/behavioral/chain.py:61-64 | stores the successor and returns it |
| Chain.Handler.Handle | src/oop/patterns/behavioral/chain.py:66-128 | on an acyclic chain, a handler answers `FirstAnswer` of the chain from itself onwards |
| Chain.FirstAnswerIsFirstMatch | src/oop/patterns/behavioral/chain.py:66-128 | the chain answers exactly when some handler's level matches, and then with the first matching handler's "<Name>: Handling <request>" |
| Chain.ForwardsUnchanged | src/oop/patterns/behavioral/chain.py:66-128 | a handler that does not match answers what its successor answers for the unchanged request |
| Chain.ChainTail | src/oop/patterns/behavioral/chain.py:68-69 | the successor of a handler in a chain heads the rest of the chain |
| Chain.BuildChain | tests/oop/patterns/behavioral/test_chain.py:49-50 | `low.set_next(mid).set_next(high)` builds the chain low, mid, high |
| Chain.ChainScenario | tests/oop/patterns/behavioral/test_chain.py:52-84 | "low", "mid", "high" are answered by their handlers and "unknown" by none |
| Chain.LoneHandlerScenario | src/oop/patterns/behavioral/chain.py:66-70 | a handler without successor answers its own level and returns None otherwise |
| Proxy.Apply | src/oop/patterns/structural/proxy.py:27-38 | one operation on the real account: a deposit adds, a covered withdrawal subtracts, an uncovered one changes nothing; no contract of its own, `WithdrawKeepsNonNegative` states the withdrawal rule |
| Proxy.Run | src/oop/patterns/structural/proxy.py:27-38 | the balance after a sequence of operations; no contract of its own, `RunKeepsNonNegative` is about it |
| Proxy.WithdrawKeepsNonNegative | src/oop/patterns/structural/proxy.py:32-38 | from a non-negative balance a withdrawal leaves it non-negative, and succeeds exactly when the amount is covered |
| Proxy.RunKeepsNonNegative | src/oop/patterns/structural/proxy.py:27-38 | any sequence of non-negative deposits and withdrawals keeps a non-negative balance non-negative |
| Proxy.RealBankAccount.Default | src/oop/patterns/structural/proxy.py:23-25 | the default initial balance is 0 |
| Proxy.RealBankAccount.constructor | src/oop/patterns/structural/proxy.py:23-25 | the balance is the initial balance |
| Proxy.RealBankAccount.Deposit | src/oop/patterns/structural/proxy.py:27-30 | the balance grows by the amount |
| Proxy.RealBankAccount.Withdraw | src/oop/patterns/structural/proxy.py:32-38 | succeeds exactly when the amount is covered, lowering the balance by it; otherwise insufficient funds and no change |
| Proxy.BankAccountProxy.Deposit | src/oop/patterns/structural/proxy.py:50-55 | authenticated: exactly the real deposit; otherwise access denied and the balance untouched |
| Proxy.BankAccountProxy.Withdraw | src/oop/patterns/structural/proxy.py:57-62 | authenticated: exactly the real withdrawal; otherwise access denied and the balance untouched |
| Proxy.UnauthenticatedScenario | tests/oop/patterns/structural/test_proxy.py:14-25 | an unauthenticated proxy leaves 100 at 100 |
| Proxy.AuthenticatedScenario | tests/oop/patterns/structural/test_proxy.py:27-42 | an authenticated proxy takes 100 to 150 to 130 |
| Proxy.InsufficientFundsScenario | tests/oop/patterns/structural/test_proxy.py:44-53 | withdrawing more than 50 reports insufficient funds and keeps 50 |
| Proxy.DefaultBalanceScenario | src/oop/patterns/structural/proxy.py:23-25 | an account made without a balance holds 0 |
| Builder.Car.constructor | oop/patterns/creational/builder/builder.py:7-10 | a new car has no model and no year |
| Builder.ShowModel | oop/patterns/creational/builder/builder.py:14 | an unset model shows as "None"; no contract of its own |
| Builder.ShowYear | oop/patterns/creational/builder/builder.py:14 | an unset year shows as "None", a set one as its decimal text; no contract of its own, `ShowYearInjective` states that the text determines the year |
| Builder.Describe | oop/patterns/creational/builder/builder.py:12-14 | `str(car)`: "Car: ", the model, a space, the year; no contract of its own, `DescribeScenario` checks the tests' text |
| Builder.ShowYearInjective | oop/patterns/creational/builder/builder.py:12-14 | the year's text determines the year, `None` included |
| Builder.NotNone | oop/patterns/creational/builder/builder.py:14 | no integer renders as "None" |
| Builder.CarBuilder.constructor | oop/patterns/creational/builder/builder.py:20-22 | the builder starts with a new empty car |
| Builder.CarBuilder.SetModel | oop/patterns/creational/builder/builder.py:24-27 | sets only the pending car's model and returns the same builder |
| Builder.CarBuilder.SetYear | oop/patterns/creational/builder/builder.py:29-32 | sets only the pending car's year and returns the same builder |
| Builder.CarBuilder.Build | oop/patterns/creational/builder/builder.py:34-38 | returns the pending car and leaves a different, new, empty one |
| Builder.CarBuilder.Reset | oop/patterns/creational/builder/builder.py:40-42 | replaces the pending car with a new empty one |
| Builder.DescribeScenario | tests/oop/patterns/creational/builder/test_builder.py:66-70 | a car built with model "Roadster" and year 2023 reads "Car: Roadster 2023" |
| Builder.ResetScenario | tests/oop/patterns/creational/builder/test_builder.py:34-51 | after a reset, the next car carries only what was set after it |
| Builder.BuildTwiceScenario | tests/oop/patterns/creational/builder/test_builder.py:53-64 | building twice gives a second, different car with no fields set |
| BookIteration.Describe | oop/patterns/behavioral/iterator.py:14-16 | `str(book)`: the title, " by ", the author; no contract of its own |
| BookIteration.PyIndex | oop/patterns/behavioral/iterator.py:67-69 | Python list indexing: valid exactly for -n <= i < n, counting negative indices from the end; otherwise `IndexError` |
| BookIteration.MyBookCollection.constructor | oop/patterns/behavioral/iterator.py:60-61 | a new collection is empty |
| BookIteration.MyBookCollection.AddBook | oop/patterns/behavioral/iterator.py:63-65 | appends the book at the end |
| BookIteration.MyBookCollection.Len | oop/patterns/behavioral/iterator.py:71-73 | counts the books |
| BookIteration.MyBookCollection.GetBook | oop/patterns/behavioral/iterator.py:67-69 | Python indexing of the books |
| BookIteration.BookIterator.constructor | oop/patterns/behavioral/iterator.py:34-36 | a new iterator starts at index 0 |
| BookIteration.BookIterator.HasNext | oop/patterns/behavioral/iterator.py:44-46 | true exactly when the index is below the count |
| BookIteration.BookIterator.Next | oop/patterns/behavioral/iterator.py:38-42 | returns the current book and advances; past the end raises `IndexError` without advancing |
| BookIteration.Drain | oop/patterns/behavioral/iterator.py:38-46 | looping `while has_next(): next()` yields the remaining books in order and ends at the end |
| BookIteration.CollectionScenario | tests/oop/patterns/behavioral/test_iterator.py:18-26 | three books are counted and retrieved by index; out of range raises `IndexError` |
| BookIteration.IterationScenario | oop/patterns/behavioral/iterator.py:38-46 | iterating yields the books in insertion order, and then `next` raises |
| Composite.Display | src/oop/patterns/structural/composite.py:9-44 | the listing ends without raising exactly when no node of the tree is the bare base class, and otherwise raises `NotImplementedError` |
| Composite.DisplayAll | src/oop/patterns/structural/composite.py:43-44 | the children's listings end without raising exactly when every child is concrete, and otherwise raise `NotImplementedError` |
| Composite.Indent | src/oop/patterns/structural/composite.py:20-42 | the indentation at depth d is 2*d spaces |
| Composite.DisplayConcrete | src/oop/patterns/structural/composite.py:20-44 | displaying a tree of files and directories raises nothing, prints one line per node, and indents each by at least the depth |
| Composite.DisplayAllConcrete | src/oop/patterns/structural/composite.py:43-44 | the same for a directory's children at the next depth |
| Composite.IndentDeeper | src/oop/patterns/structural/composite.py:43-44 | lines indented for a deeper level are indented for a shallower one |
| Composite.DisplayAfterAdd | src/oop/patterns/structural/composite.py:32-44 | adding a child appends that child's lines, one level deeper, to the directory's display |
| Composite.DisplayAllSnoc | src/oop/patterns/structural/composite.py:43-44 | the children's listing is each child's listing in insertion order |
| Composite.RemoveFirst | src/oop/patterns/structural/composite.py:36-38 | `list.remove`: succeeds exactly when the child is present, dropping exactly one occurrence; otherwise `ValueError`; which entry goes is stated by `RemoveFirstDropsFirstOccurrence` |
| Composite.RemoveFirstDropsFirstOccurrence | src/oop/patterns/structural/composite.py:36-38 | a successful removal takes out the first occurrence: the children before it (none of them the removed one) and after it stay, in order |
| Composite.RemoveUndoesAdd | src/oop/patterns/structural/composite.py:32-38 | removing a child just added, not present before, restores the children |
| Composite.Directory.constructor | src/oop/patterns/structural/composite.py:28-30 | a new directory has no children |
| Composite.Directory.Tree | src/oop/patterns/structural/composite.py:25-30 | the directory as a tree value with its name and children |
| Composite.Directory.Add | src/oop/patterns/structural/composite.py:32-34 | appends the child at the end |
| Composite.Directory.Remove | src/oop/patterns/structural/composite.py:36-38 | takes out the first occurrence when present, keeping the other children in order; otherwise `ValueError` and no change |
| Composite.FileScenario | tests/oop/patterns/structural/test_composite.py:14-20 | a file at depth 0 prints "File: test_file.txt" |
| Composite.NestedScenario | tests/oop/patterns/structural/test_composite.py:35-47 | the nested directory prints its four lines at depths 0, 1, 2 and 1 |
| Composite.EmptyDirectoryListing | src/oop/patterns/structural/composite.py:40-44 | an empty directory prints only its own line |
| Composite.NestedListing | tests/oop/patterns/structural/test_composite.py:35-47 | the listing of a directory holding a subdirectory with one file, then a file |
| Composite.NestedListingText | tests/oop/patterns/structural/test_composite.py:35-47 | with the test's names, the nested listing is exactly the four expected lines and raises nothing |
| Composite.RemoveScenario | src/oop/patterns/structural/composite.py:36-38 | removing an absent child raises `ValueError`; removing a present one leaves the rest |
| Composite.AbstractScenario | src/oop/patterns/structural/composite.py:9-44 | a directory holding a base component prints its own line and the earlier children, then raises `NotImplementedError` |
| Mediator.ReceiveLine | oop/patterns/behavioral/mediator.py:62-64 | the line `receive` prints under the user's name; no contract of its own |
| Mediator.SendLine | oop/patterns/behavioral/mediator.py:57-59 | the line `send` prints before relaying; no contract of its own |
| Mediator.User.constructor | oop/patterns/behavioral/mediator.py:52-55 | a user has a name and a room |
| Mediator.User.Receive | oop/patterns/behavioral/mediator.py:62-64 | prints the message under the user's name |
| Mediator.User.Send | oop/patterns/behavioral/mediator.py:57-60 | announces the message, then the room delivers it to everyone but this user |
| Mediator.Recipients | oop/patterns/behavioral/mediator.py:44-46 | the recipients are never more than the members |
| Mediator.Deliveries | oop/patterns/behavioral/mediator.py:44-46 | one receive line per recipient, in order |
| Mediator.RecipientsExact | oop/patterns/behavioral/mediator.py:45 | a user receives exactly when registered and not the sender |
| Mediator.RecipientsSnoc | oop/patterns/behavioral/mediator.py:44-46 | recipients keep registration order |
| Mediator.DeliveriesAppend | oop/patterns/behavioral/mediator.py:44-46 | deliveries to two groups in turn are the deliveries to each |
| Mediator.ChatRoom.constructor | oop/patterns/behavioral/mediator.py:34-36 | a new room has no members |
| Mediator.ChatRoom.AddColleague | oop/patterns/behavioral/mediator.py:38-40 | appends the member |
| Mediator.ChatRoom.Send | oop/patterns/behavioral/mediator.py:42-46 | the loop delivers to exactly the registered users other than the sender, in registration order |
| Mediator.TwoUserRoom | tests/oop/patterns/behavioral/test_mediator.py:36-50 | in a room of two, a message from either reaches only the other |
| Mediator.ChatScenario | tests/oop/patterns/behavioral/test_mediator.py:36-43 | Alice's message reaches only Bob, Bob's only Alice |
| SingletonRegistry.Instance.constructor | oop/patterns/creational/singleton/singleton_naive.py:31-42 | `__init__` stores the name |
| SingletonRegistry.Registry.constructor | oop/patterns/creational/singleton/singleton_naive.py:11 | the registry starts empty |
| SingletonRegistry.Registry.Call | oop/patterns/creational/singleton/singleton_naive.py:13-17 | the first call for a class creates and records an instance from the arguments; later calls return the recorded instance and ignore the arguments |
| SingletonRegistry.Registry.Reset | oop/patterns/creational/singleton/singleton_naive.py:19-22 | forgets every instance |
| SingletonRegistry.DistinctClassesDistinctInstances | tests/oop/patterns/creational/test_singleton_naive.py:20-35 | different classes never share an instance |
| SingletonRegistry.NamingScenario | tests/oop/patterns/creational/test_singleton_naive.py:20-50 | two calls per class give one instance per class, named by the first call |
| SingletonRegistry.ResetScenario | tests/oop/patterns/creational/test_singleton_naive.py:52-59 | after `reset` a different instance is built, named by its own argument |
| ClassSingleton.Dict.Set | oop/patterns/creational/singleton.py:15 | a dictionary assignment updates one key |
| ClassSingleton.SingletonClass.constructor | oop/patterns/creational/singleton.py:14-15 | no instance yet, and `config` is {"db": "test"} |
| ClassSingleton.SingletonClass.New | oop/patterns/creational/singleton.py:17-24 | the first call creates and stores the instance; later calls return it |
| ClassSingleton.SingletonClass.GetInstance | oop/patterns/creational/singleton.py:26-29 | the same object the constructor gives |
| ClassSingleton.IdentityScenario | tests/oop/patterns/creational/test_singleton.py:15-23 | constructor calls and `get_instance` give one object |
| ClassSingleton.ConfigScenario | tests/oop/patterns/creational/test_singleton.py:25-39 | `config` starts {"db": "test"}; a change through one instance is seen through the next |
| NotificationDecorator.ChannelLine | src/oop/patterns/structural/decorator.py:23-41 | the line each decorator adds; no contract of its own |
| NotificationDecorator.Send | src/oop/patterns/structural/decorator.py:7-41 | one line per layer, the plain notification's line always first |
| NotificationDecorator.Channels | src/oop/patterns/structural/decorator.py:12-41 | one decorator kind per layer |
| NotificationDecorator.Lines | src/oop/patterns/structural/decorator.py:23-41 | one added line per decorator |
| NotificationDecorator.Decorate | src/oop/patterns/structural/decorator.py:15-32 | wrapping n decorators gives depth n |
| NotificationDecorator.SendIsBaseThenChannels | src/oop/patterns/structural/decorator.py:18-37 | sending prints the plain line, then each decorator's line from the innermost outwards |
| NotificationDecorator.ChannelsOfDecorate | src/oop/patterns/structural/decorator.py:15-32 | any stack of decorators can be built and read back |
| NotificationDecorator.DecorateOfChannels | src/oop/patterns/structural/decorator.py:15-32 | a notification is determined by its decorators |
| NotificationDecorator.SmsAroundEmail | tests/oop/patterns/structural/test_decorator.py:35-43 | SMS around email around plain prints the plain, email and SMS lines in that order |
| UserActions.DoAction | src/oop/patterns/behavioral/template.py:28-41 | no action line is the login or logout line |
| UserActions.PerformAction | src/oop/patterns/behavioral/template.py:9-13 | exactly three lines: login first, logout last, and the kind's own action only in between |
| UserActions.PerformActionInjective | tests/oop/patterns/behavioral/test_template.py:12-38 | the output tells admin and regular actions apart |
| VideoStreaming.PlayLine | oop/patterns/structural/facade.py:20-22 | the line `play_video` prints; no contract of its own, `RefusalLinesDiffer` tells it apart from the refusal |
| VideoStreaming.Login | oop/patterns/structural/facade.py:7-14 | succeeds exactly for "user"/"password", printing success or failure for the user name |
| VideoStreaming.LoadPreferences | oop/patterns/structural/facade.py:37-40 | the same preferences for every user |
| VideoStreaming.GetRecommendations | oop/patterns/structural/facade.py:28-31 | the same three videos for every user |
| VideoStreaming.WatchVideo | oop/patterns/structural/facade.py:53-65 | after a failed login only the refusal follows; after a successful one, preferences, recommendations (for the user name) and playback, in that order |
| VideoStreaming.RefusalLinesDiffer | oop/patterns/structural/facade.py:12-56 | the play line and the preferences line differ from the refusal line and from a failed login's line |
| VideoStreaming.PlaysExactlyWhenAuthenticated | tests/oop/patterns/structural/test_facade.py:13-39 | the video plays exactly for valid credentials, and a refused user's preferences are never loaded |
| FactoryLogistics.Deliver | oop/patterns/creational/factory/transport/truck_transport.py:11-13 | the fixed text of each transport (the ship's is at `ship_transport.py:8-10`); no contract of its own, `DeliverInjective` states that the texts differ |
| FactoryLogistics.CreateTransport | oop/patterns/creational/factory/logistic/road_logistics.py:10-12 | the factory method: road logistics creates a truck (and ship logistics a ship, `ship_logistics.py:10-12`); no contract of its own, `PlanNamesCreatedTransport` ties it to the plan |
| FactoryLogistics.PlanDelivery | oop/patterns/creational/factory/logistic/logistics.py:14-17 | `plan_delivery`: the prefix, then what the created transport delivers; no contract of its own, `PlanNamesCreatedTransport` states that the plan names exactly the created transport |
| FactoryLogistics.DeliverInjective | oop/patterns/creational/factory/transport/truck_transport.py:11-13 | different transports deliver differently |
| FactoryLogistics.PlanNamesCreatedTransport | oop/patterns/creational/factory/logistic/logistics.py:14-17 | the plan is "Logistics: " followed by a transport's delivery exactly for the transport the factory method creates |
| FactoryLogistics.RoadPlanText | oop/patterns/creational/factory/logistic/road_logistics.py:10-12 | road logistics plans "Logistics: Delivering by land in a truck." |
| FactoryLogistics.ShipPlanText | oop/patterns/creational/factory/logistic/ship_logistics.py:10-12 | ship logistics plans "Logistics: Delivering by sea in a ship." |
| FactoryLogistics.PlanScenario | tests/oop/patterns/creational/factory/logistic/test_road_logistics.py:49-54 | both plans read as the tests expect |
| AbstractLogistics.Deliver | oop/patterns/creational/abstract_factory/transports.py:14-29 | the fixed text of each transport; no contract of its own |
| AbstractLogistics.Package | oop/patterns/creational/abstract_factory/packagings.py:13-26 | the fixed text of each packaging; no contract of its own |
| AbstractLogistics.CreateTransport | src/oop/patterns/creational/abstract_factory/logistics.py:24-38 | a factory's transport belongs to the factory's family |
| AbstractLogistics.CreatePackaging | src/oop/patterns/creational/abstract_factory/logistics.py:28-42 | a factory's packaging belongs to the factory's family |
| AbstractLogistics.ProductsMatch | src/oop/patterns/creational/abstract_factory/logistics.py:21-42 | a product is the one a factory creates exactly when it belongs to the factory's family, so no mixed pair arises |
| AbstractLogistics.FactoryScenario | tests/oop/patterns/creational/abstract_factory/test_logistics.py:29-89 | the road factory delivers by truck and packs in a box; the sea factory delivers by ship and packs in a container |

## Left out

- Printing: every `print` is a returned line. Output to a terminal, and the mocking of `print` in the tests, are not modelled.
- The demonstration runners (`patterns_runner.py`, `main.py`): they only print.
- The thread-safe metaclass singleton: its lock is its point, and concurrency is not modelled. Its sequential behaviour is the metaclass singleton's.
- Adapter, bridge, strategy and visitor: their only observable output is floating-point formatting.
- `fancy_print` and the `advance` decorators: these are wrappers around `print` and `functools.wraps`, a library not part of this model.
- `advance_builder.py`: the file is a string literal with no code.
- `generators.py`: the file is commented out.
- `oop/oop.py`: its functions are constant stubs.
- Proxy: amounts are exact reals. The printed messages, with their float rendering, are replaced by a `Report` value.
- Prototype: generic `copy.copy`/`copy.deepcopy` is modelled only for `SomeComponent` graphs. The list elements are ints, sets of ints and lists of ints.
- Prototype.DeepClone: requires the node's parent to be absent or to share the component's list and node. This covers the tests' graph and every clone of it. A parent elsewhere would make deepcopy copy an unrelated graph.
- Chain: chains are acyclic. `set_next` looping back would make `handle` recurse forever. A handler's chain is a ghost list of handlers.
- Chain.Handler.Handle: `if self._next_handler` tests truthiness; handlers define no `__bool__`, so it is modelled as `!= null`.
- Composite: directories are modelled as tree values, so a directory added to itself cannot be expressed. Two aliasing effects are not modelled:
  - a subdirectory changed after being added;
  - `remove` comparing by identity rather than by structure (components define no `__eq__`).
- Composite.Display: a base component's `NotImplementedError` is an outcome value returned after the lines printed before it.
- Observer: `_subject_state` and `_state` are class-level defaults shadowed by instance attributes. Only the instance values, which start at 0, are modelled. The `_state is not None` check in `attach` is always true for an `int` state.
- Mediator: the abstract `Mediator`/`Colleague` bases are not modelled; `User` holds a `ChatRoom`.
- Singleton (`__new__`): `oop/patterns/creational/singleton.py` and `src/oop/patterns/creational/singleton/singleton.py` differ only in the private attribute's name, so one module models both. A class object is a `SingletonClass` value.
- Factory transports and packaging: the constant-returning classes are modelled as datatype constants. `src/oop/patterns/creational/abstract_factory/packagings.py` is not part of this model. Its texts are taken from `oop/patterns/creational/abstract_factory/packagings.py`, which the tests import.
- Template/Facade/Decorator: the abstract base classes are datatype alternatives, not classes.
