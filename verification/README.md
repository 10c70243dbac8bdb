# Design-pattern demos, modelled in Dafny

This project models the behavioural core of a TypeScript collection of
design-pattern demos (creational, structural and behavioural patterns). Each
demo is a small class or two plus a `main` function. Under the console output,
most demos hold a piece of deterministic logic: a state machine, an undo
stack, a guarded counter, a dispatch rule, a serialiser, a cache or a list of
observers. The model keeps that logic and proves what it guarantees.

Conventions used throughout:

- Every console message becomes a value. It is either an outcome datatype
  (`Collected`/`AlreadyComplete`, `Welcomed`/`Refused`, `Shown`/`Denied`, …)
  or a trace of events in order (notifications, deliveries, device effects,
  the handlers a support request passed through).
- A mutable object becomes an immutable datatype, and each method becomes a
  function from the old value to the new one. A singleton's "one shared
  instance" is a single state value threaded through every call.
- Observers and chat users are compared by reference in the source (`!==`
  in the `filter` calls), so they are modelled as `nat` references.
  Approvers and support handlers differ only in their class, so they are
  modelled as a kind datatype (`Approver`, `Support`), and a chain as the
  sequence of kinds reached through `setNext`.
- Object identity is the point of the prototypes and the computer builder, so
  those stay classes. The `fresh`/`modifies` contracts there are paired with
  scenario methods that return plain values.
- `null` and `undefined` results become `Option.None`.

Modules, one per source file or shared helper:

| module | models |
|---|---|
| `VendingMachine` | the state pattern's three-state vending machine |
| `TextEditor` | the command pattern's editor with copy/paste/undo and a toolbar |
| `EditorHistory` | the immutable editor state with `copyWith` and the save/redo history |
| `Memento` | the game with save/play/restore and the LIFO memento store |
| `DragonBalls`, `DatabaseConnection` | the two singletons |
| `Chain` | `setNext` links shared by both chains of responsibility |
| `ApprovalChain`, `SupportChain` | the purchase-approval and support-ticket chains |
| `QueryBuilder` | the SQL query builder and its `execute` serialiser |
| `ComputerBuilder` | the fluent computer builder |
| `Flyweight` | the location-icon factory cache |
| `PokemonIterator` | the collection iterator |
| `YouTubeChannel`, `WeatherStation` | the two observer demos |
| `ChatRoom` | the mediator chat room |
| `MagicPortal`, `DocumentProxy` | the level-gated and role-gated proxies |
| `ConfigManager` | the module-level configuration store |
| `RemoteControl` | the button-to-command remote |
| `EmissionCheck` | the visitor's emission rules |
| `PokemonPrototype`, `DocumentPrototype` | the two `clone` demos |
| `Strings`, `Lists`, `Wrappers` | `join`, ASCII `toLowerCase`, number rendering, `filter(x => x !== o)`, `Option` |

## Model

| member | source | states |
|---|---|---|
| VendingMachine.SetStateCall | 03-comportamiento/07-state.ts:71-139 | `setState` is called exactly for the three (state, action) pairs of the transition table, with the table's target |
| VendingMachine.Step | 03-comportamiento/07-state.ts:71-139 | each action moves to the table's target when the pair is in the table, and otherwise leaves the state as it is; the state changes iff the pair is a table entry |
| VendingMachine.RunAppend | 03-comportamiento/07-state.ts:40-50 | running two action sequences one after the other is running their concatenation |
| VendingMachine.Name | 03-comportamiento/07-state.ts:57-59 | each state's display name is 'Esperando Dinero', 'Seleccionando Producto' or 'Despachando producto', and each name belongs to exactly one state |
| VendingMachine.NamesDistinct | 03-comportamiento/07-state.ts:57-59 | `getStateName` tells the three states apart: equal names iff equal states |
| VendingMachine.Expected | 03-comportamiento/07-state.ts:71-139 | every state has exactly one action that changes it, so no state is terminal |
| VendingMachine.PurchaseCycle | 03-comportamiento/07-state.ts:71-139 | from any state, following the expected action three times returns to that state |
| VendingMachine.RunOneByOne | 03-comportamiento/07-state.ts:40-50 | a run of up to three actions is the actions applied one at a time |
| VendingMachine.AllStatesReachable | 03-comportamiento/07-state.ts:71-139 | every state can reach every state |
| VendingMachine.PurchaseScenario | 03-comportamiento/07-state.ts:36-38 | a new machine waits for money under the name 'Esperando Dinero'; selecting first does nothing, and insert, select, dispense comes back to waiting |
| TextEditor.Undo | 03-comportamiento/02.2-command.ts:52-60 | with an empty history nothing changes; otherwise the text becomes the last snapshot, which leaves the history, and the clipboard stays |
| TextEditor.Type | 03-comportamiento/02.2-command.ts:30-34 | the old text is a prefix of the new one, the added suffix is exactly the typed text, the clipboard stays, the old text is always pushed (even for empty input), and an undo gives back the editor exactly |
| TextEditor.Copy | 03-comportamiento/02.2-command.ts:36-43 | the clipboard takes the text; text and history stay |
| TextEditor.Paste | 03-comportamiento/02.2-command.ts:45-50 | the old text is a prefix of the new one, the added suffix is the clipboard, the clipboard stays, the old text is always pushed (even for an empty clipboard), and an undo gives back the editor exactly |
| TextEditor.PushAppendConsistent | 03-comportamiento/02.2-command.ts:30-33 | pushing the text before appending keeps history plus text a chain of prefixes |
| TextEditor.UndoConsistent | 03-comportamiento/02.2-command.ts:52-57 | undo keeps the prefix chain and only ever shortens the text to an earlier prefix |
| TextEditor.OperationsPreserveConsistency | 03-comportamiento/02.2-command.ts:30-57 | type, copy, paste and undo all keep history plus text a chain of prefixes |
| TextEditor.Execute | 03-comportamiento/02.2-command.ts:69-103 | each bound command keeps the editor consistent; copy leaves text and history alone and fills the clipboard, paste appends the clipboard and one undo takes it back, undo is the editor's undo |
| TextEditor.SetCommand | 03-comportamiento/02.2-command.ts:110-112 | the button is bound to the command, replacing any earlier binding, and every other button keeps its binding |
| TextEditor.ClickButton | 03-comportamiento/02.2-command.ts:114-121 | a bound button runs its command exactly once; an unbound one runs nothing and leaves the editor as it was |
| TextEditor.TypeEachAppends | 03-comportamiento/02.2-command.ts:141-151 | typing a string one character per call appends it, pushes one snapshot per character, and the last snapshot lacks only the last character |
| TextEditor.CopyPasteUndoUndo | 03-comportamiento/02.2-command.ts:156-167 | after typing any non-empty string, copy, paste, undo, undo leaves the string without its last character |
| TextEditor.DemoTypedDropLast | 03-comportamiento/02.2-command.ts:141-151 | the typed 'Hola Mundo!' without its last character is 'Hola Mundo' |
| TextEditor.EditingScenario | 03-comportamiento/02.2-command.ts:126-167 | the demo ends with the text 'Hola Mundo' |
| EditorHistory.CopyWith | 01-creacionales/05-inmutabilidad.ts:25-35 | each supplied field is taken and each omitted one is kept from the receiver |
| EditorHistory.CopyWithLaws | 01-creacionales/05-inmutabilidad.ts:25-35 | an empty patch is the identity, two successive copies are one combined copy, and a full patch ignores the receiver |
| EditorHistory.FalsyValuesHonoured | 01-creacionales/05-inmutabilidad.ts:31-33 | an explicit `0`, `false` or empty string is used, not replaced by the receiver's value |
| EditorHistory.Save | 01-creacionales/05-inmutabilidad.ts:51-58 | the history is cut to its first currentIndex+1 entries and the state appended; the cursor ends on the new last entry, and the index invariant holds |
| EditorHistory.Redo | 01-creacionales/05-inmutabilidad.ts:60-67 | a state is returned iff the cursor is before the last entry; it is the next entry and the cursor moves onto it; otherwise nothing changes; the index invariant holds |
| EditorHistory.Apply | 01-creacionales/05-inmutabilidad.ts:47-68 | any sequence of saves and redos keeps -1 <= currentIndex <= length-1 |
| EditorHistory.OnlyTailReachable | 01-creacionales/05-inmutabilidad.ts:47-68 | from a history whose cursor is at the tail, saves and redos keep it at the tail, so redo has nothing to return |
| EditorHistory.RedoNeverAvailable | 01-creacionales/05-inmutabilidad.ts:47-68 | with only save and redo, redo on any reachable history returns null |
| EditorHistory.SavesRecordInOrder | 01-creacionales/05-inmutabilidad.ts:51-58 | saving states one after another from the tail appends exactly those states in order |
| EditorHistory.DemoScenario | 01-creacionales/05-inmutabilidad.ts:70-86 | the demo's two saves record the initial and the edited state, in that order |
| Memento.Restore | 03-comportamiento/05-memento.ts:68-71 | the game takes the memento's level, health and position |
| Memento.Save | 03-comportamiento/05-memento.ts:51-53 | restoring the memento into any later game gives back the game as it was when saved |
| Memento.Play | 03-comportamiento/05-memento.ts:55-58 | all three fields are overwritten by the arguments |
| Memento.SavePlayRestore | 03-comportamiento/05-memento.ts:51-71 | save, play, restore returns to the saved game |
| Memento.Push | 03-comportamiento/05-memento.ts:90-92 | the memento goes on top and the rest of the stack is unchanged |
| Memento.Pop | 03-comportamiento/05-memento.ts:94-96 | an empty stack yields null and stays empty; otherwise the top is returned and removed |
| Memento.PushPop | 03-comportamiento/05-memento.ts:90-96 | a pop right after a push returns the pushed memento and the previous stack |
| Memento.DemoScenario | 03-comportamiento/05-memento.ts:99-122 | the demo's two pops restore (3, 70, 'Cueva Oscura') and then (2, 90, 'Bosque Encantado') |
| DragonBalls.CollectBall | 01-creacionales/06-singleton.ts:30-39 | below 7 the count goes up by one; at 7 it stays; 0..7 is kept |
| DragonBalls.SummonShenlong | 01-creacionales/06-singleton.ts:42-51 | the dragon appears iff exactly 7 balls are held, and the count resets to 0; otherwise nothing changes and 7 minus the count is reported missing |
| DragonBalls.CollectTimesSaturates | 01-creacionales/06-singleton.ts:30-39 | collecting n times from a valid count gives min(count + n, 7) |
| DragonBalls.SummonAfterCollecting | 01-creacionales/06-singleton.ts:17-51 | from a fresh instance, summoning succeeds after n collections iff n >= 7 |
| DragonBalls.SharedInstanceScenario | 01-creacionales/06-singleton.ts:55-72 | through one shared count: 3 collections, a summon reporting 4 missing, 4 more, then a summon that succeeds and resets to 0 |
| DatabaseConnection.Connect | 01-creacionales/06.2-singleton.ts:31-38 | afterwards the connection is open, and 'already connected' is reported iff it was open |
| DatabaseConnection.Disconnect | 01-creacionales/06.2-singleton.ts:41-48 | afterwards the connection is closed, and 'not connected' is reported iff it was closed |
| DatabaseConnection.ConnectDisconnectLaws | 01-creacionales/06.2-singleton.ts:31-48 | connect and disconnect are idempotent, and disconnect after connect gives back the initial closed state |
| DatabaseConnection.SharedInstanceScenario | 01-creacionales/06.2-singleton.ts:52-63 | connect, connect (already connected), disconnect, connect leaves the shared connection open |
| Chain.SetNext | 03-comportamiento/01.2-chain-responsibility.ts:23-26 | links the handler to the next one, leaves every other link alone, and returns the next handler so calls chain |
| Chain.Walk | 03-comportamiento/01.2-chain-responsibility.ts:31-38 | the handlers reached from a start, each linked to the one after it, stopping where no successor is set |
| Chain.ChainedSetNext | 03-comportamiento/01.2-chain-responsibility.ts:90 | `a.setNext(b).setNext(c)` builds the chain a, b, c |
| ApprovalChain.Approves | 03-comportamiento/01.2-chain-responsibility.ts:43-75 | Director approves every amount, Supervisor and Manager never more than 5000, and everyone approves up to 1000 |
| ApprovalChain.AuthorityNested | 03-comportamiento/01.2-chain-responsibility.ts:43-75 | whatever Supervisor approves Manager approves, whatever Manager approves Director approves, and each approver also approves every smaller amount |
| ApprovalChain.Request | 03-comportamiento/01.2-chain-responsibility.ts:31-74 | the request is approved by the first approver in the chain whose limit allows it (Supervisor up to 1000, Manager up to 5000, Director always), and reported not approved iff none does |
| ApprovalChain.DirectorApprovesAll | 03-comportamiento/01.2-chain-responsibility.ts:71-75 | a chain containing a Director approves every amount |
| ApprovalChain.StandardChain | 03-comportamiento/01.2-chain-responsibility.ts:43-75 | in Supervisor, Manager, Director each amount is approved by exactly the first approver whose threshold covers it |
| ApprovalChain.DemoScenario | 03-comportamiento/01.2-chain-responsibility.ts:79-101 | 500, 3000 and 7000 are approved by Supervisor, Manager and Director |
| SupportChain.React | 03-comportamiento/01-chain-responsibility.ts:36-83 | a handler resolves iff the request is its specialty; expert support gives up on anything else and never forwards, the other two forward it |
| SupportChain.Handle | 03-comportamiento/01-chain-responsibility.ts:28-83 | each handler reached reacts by its own rule; every handler before the last forwarded because the request was not its specialty and none of them is expert support; the last resolved it iff it was its specialty, gave up only if it is expert support, and forwarded only at the end of the chain and never if it is expert support |
| SupportChain.AtMostOneResolves | 03-comportamiento/01-chain-responsibility.ts:36-83 | no two handlers resolve the same request: only the last one reached can |
| SupportChain.DemoBasic | 03-comportamiento/01-chain-responsibility.ts:36-48 | 'básico' is resolved by basic support at once |
| SupportChain.DemoAdvanced | 03-comportamiento/01-chain-responsibility.ts:51-66 | 'avanzado' passes basic support and is resolved by advanced support |
| SupportChain.DemoExpertAndUnknown | 03-comportamiento/01-chain-responsibility.ts:69-83 | 'experto' is resolved by expert support, and 'nuclear' reaches expert support, which gives up |
| SupportChain.DemoScenario | 03-comportamiento/01-chain-responsibility.ts:86-97 | the demo's four requests end as described, and 'nuclear' is resolved by no one |
| SupportChain.DemoWiring | 03-comportamiento/01-chain-responsibility.ts:91 | the demo's `setNext` calls build basic, advanced, expert in that order |
| QueryBuilder.FieldsPart | 01-creacionales/01.2-builder.ts:49 | the field list is `*` when no field was selected, otherwise the fields joined by ', ' |
| QueryBuilder.WherePart | 01-creacionales/01.2-builder.ts:50-52 | the WHERE clause is empty iff there is no condition, otherwise 'WHERE ' and the conditions joined by ' AND ' |
| QueryBuilder.OrderPart | 01-creacionales/01.2-builder.ts:53-55 | the ORDER BY clause is empty iff there is no order field, otherwise 'ORDER BY ' and the fields joined by ', ' |
| QueryBuilder.LimitPart | 01-creacionales/01.2-builder.ts:56 | the LIMIT clause is empty iff no limit or a limit of 0 was set, otherwise 'LIMIT ' and the rendered count |
| QueryBuilder.Select | 01-creacionales/01.2-builder.ts:70-73 | replaces the field list and changes nothing else |
| QueryBuilder.Where | 01-creacionales/01.2-builder.ts:75-78 | appends the condition and changes nothing else |
| QueryBuilder.OrderBy | 01-creacionales/01.2-builder.ts:80-83 | appends "field direction", ASC by default, and changes nothing else |
| QueryBuilder.Limit | 01-creacionales/01.2-builder.ts:85-88 | replaces the limit and changes nothing else |
| QueryBuilder.Execute | 01-creacionales/01.2-builder.ts:48-59 | the statement starts with 'SELECT ', ends with ';', and is the seven parts joined by single spaces, empty parts included |
| QueryBuilder.JoinSeven | 01-creacionales/01.2-builder.ts:58 | joining seven parts puts the separator between each neighbouring pair |
| QueryBuilder.ExecuteIsSpaceJoined | 01-creacionales/01.2-builder.ts:58 | the template literal equals the space-join of its seven parts |
| QueryBuilder.WhereAccumulates | 01-creacionales/01.2-builder.ts:50-52 | a further condition extends the WHERE clause by ' AND ' and the condition, or starts it |
| QueryBuilder.OrderAccumulates | 01-creacionales/01.2-builder.ts:53-55 | a further ordering extends the ORDER BY clause by ', ' and the entry, or starts it |
| QueryBuilder.LimitAndSelectLaws | 01-creacionales/01.2-builder.ts:56 | `limit(0)` renders as no limit, and a later limit or select replaces the earlier one |
| QueryBuilder.EmptyQuery | 01-creacionales/01.2-builder.ts:48-59 | a builder with no calls renders as 'SELECT * FROM table   ;' |
| QueryBuilder.DemoFields | 01-creacionales/01.2-builder.ts:96-101 | the demo's builder calls accumulate the three fields, the two conditions in order, 'name ASC' and limit 10 |
| QueryBuilder.DemoParts | 01-creacionales/01.2-builder.ts:49-56 | the demo's four clauses render as expected |
| QueryBuilder.DemoWhereRendered | 01-creacionales/01.2-builder.ts:50-52 | the demo's two conditions render as one clause joined by AND |
| QueryBuilder.ExecuteFromParts | 01-creacionales/01.2-builder.ts:58 | the statement is the template filled with the rendered parts |
| QueryBuilder.DemoScenario | 01-creacionales/01.2-builder.ts:95-102 | the demo renders "SELECT id, name, email FROM users WHERE age > 18 AND country = 'Cri' ORDER BY name ASC LIMIT 10;" |
| ComputerBuilder.ComputerBuilder.SetCPU | 01-creacionales/01-builder.ts:39-42 | sets the CPU of the builder's own computer, changes no other part, and returns the builder itself |
| ComputerBuilder.ComputerBuilder.SetRAM | 01-creacionales/01-builder.ts:44-47 | sets the RAM, changes no other part, and returns the builder itself |
| ComputerBuilder.ComputerBuilder.SetStorage | 01-creacionales/01-builder.ts:49-52 | sets the storage, changes no other part, and returns the builder itself |
| ComputerBuilder.ComputerBuilder.SetGPU | 01-creacionales/01-builder.ts:54-57 | sets the GPU, changes no other part, and returns the builder itself |
| ComputerBuilder.ComputerBuilder.Build | 01-creacionales/01-builder.ts:59-61 | hands out the builder's own computer object, not a copy |
| ComputerBuilder.BuildComputer | 01-creacionales/01-builder.ts:32-61 | a full setter chain gives a computer with exactly the four parts set, and two builds hand out the same object |
| ComputerBuilder.BuildCpuOnly | 01-creacionales/01-builder.ts:16-20 | parts no setter touched keep their placeholder, and the GPU stays absent |
| ComputerBuilder.DemoScenario | 01-creacionales/01-builder.ts:64-82 | the demo builds the i7 office computer and the i9 gamer computer |
| Flyweight.GetLocationIcon | 02-estructurales/06-flyweight.ts:46-54 | a cached type returns its cached icon and leaves the cache alone; a new type gets an icon with that type and image 'imagen_de_' + lower(type) + '.png', added under that key only; no existing entry changes |
| Flyweight.RepeatedRequestShared | 02-estructurales/06-flyweight.ts:46-54 | a second request for a type returns the same icon and leaves the cache as it was |
| Flyweight.CaseSensitiveKeys | 02-estructurales/06-flyweight.ts:47-50 | two spellings differing only in case are separate entries with different icons but the same image |
| Flyweight.EscuelaSpellings | 02-estructurales/06-flyweight.ts:48 | 'Escuela' and 'escuela' are different keys that lower-case alike |
| Flyweight.RequestAll | 02-estructurales/06-flyweight.ts:43-54 | serving a sequence of requests keeps every entry an icon built for its own key |
| Flyweight.RequestAllKeys | 02-estructurales/06-flyweight.ts:43-54 | after a sequence of requests the cache holds exactly the old keys plus the requested types, with old entries unchanged |
| Flyweight.IconCountIsDistinctTypes | 02-estructurales/06-flyweight.ts:74-101 | the number of icons created equals the number of distinct types requested |
| Flyweight.DemoTypes | 02-estructurales/06-flyweight.ts:74-101 | the demo requests exactly the types hospital, parque and Escuela |
| Flyweight.DemoScenario | 02-estructurales/06-flyweight.ts:71-101 | the demo's 23 locations share 3 icons |
| PokemonIterator.AddPokemon | 03-comportamiento/03-iterator.ts:31-33 | appends at the end, keeping the earlier ones in place |
| PokemonIterator.GetPokemonAt | 03-comportamiento/03-iterator.ts:35-41 | the element iff 0 <= index < length, and null otherwise |
| PokemonIterator.HasNext | 03-comportamiento/03-iterator.ts:68-70 | there is a next element iff the position is below the length, which for a valid position is exactly when `getPokemonAt` finds one |
| PokemonIterator.Current | 03-comportamiento/03-iterator.ts:72-74 | the element at the position without moving, and null exactly when there is no next |
| PokemonIterator.Next | 03-comportamiento/03-iterator.ts:60-70 | with a next element, returns it and advances by one; otherwise returns null and stays; the position stays within 0..length |
| PokemonIterator.Drain | 03-comportamiento/03-iterator.ts:86-94 | the hasNext/next loop yields every element exactly once, in insertion order |
| PokemonIterator.ExhaustedThenAdded | 03-comportamiento/03-iterator.ts:60-70 | an exhausted iterator has no next, and after an add its next is the added Pokémon |
| PokemonIterator.DemoScenario | 03-comportamiento/03-iterator.ts:77-95 | the demo yields five Pokémon, from Pikachu to Jigglypuff |
| YouTubeChannel.Subscribe | 03-comportamiento/06-observer.ts:31-34 | appends at the end without de-duplication |
| YouTubeChannel.Unsubscribe | 03-comportamiento/06-observer.ts:36-39 | removes every occurrence, keeps the multiplicity of everyone else, and leaves the list unchanged for a non-member |
| YouTubeChannel.UnsubscribeKeepsOrder | 03-comportamiento/06-observer.ts:36-39 | the remaining subscribers keep their order: unsubscribing works entry by entry from the front and distributes over concatenation |
| YouTubeChannel.UploadVideo | 03-comportamiento/06-observer.ts:41-50 | one notification per list entry, in list order, carrying the title |
| YouTubeChannel.NotifiedOncePerEntry | 03-comportamiento/06-observer.ts:47-49 | a subscriber is notified as many times as it appears in the list |
| YouTubeChannel.UploadReachesList | 03-comportamiento/06-observer.ts:47-49 | the recipients of an upload are the subscriber list itself |
| YouTubeChannel.DemoLists | 03-comportamiento/06-observer.ts:77-94 | the demo's subscriptions and unsubscriptions produce the lists [M, C], [M, C, E], [M, E], [M], [] |
| YouTubeChannel.DemoScenario | 03-comportamiento/06-observer.ts:70-95 | the five uploads reach [Melissa, César], [Melissa, César, Emin], [Melissa, Emin], [Melissa] and no one |
| WeatherStation.NotifyObservers | 03-comportamiento/06.2-observer.ts:56-60 | one update per observer, in list order, with the current weather |
| WeatherStation.Subscribe | 03-comportamiento/06.2-observer.ts:31-39 | appends, and sends the current weather to the new observer only |
| WeatherStation.Unsubscribe | 03-comportamiento/06.2-observer.ts:42-45 | removes every occurrence, keeps the others' multiplicity and the weather, and leaves the station unchanged for a non-member |
| WeatherStation.UnsubscribeKeepsOrder | 03-comportamiento/06.2-observer.ts:42-45 | the remaining observers keep their order: unsubscribing works entry by entry from the front and distributes over concatenation |
| WeatherStation.SetWeather | 03-comportamiento/06.2-observer.ts:48-53 | the new value is stored first, so every current observer receives it, in list order |
| WeatherStation.SubscriberHearsCurrentThenNext | 03-comportamiento/06.2-observer.ts:31-60 | a new subscriber first hears the current weather and then the next one |
| WeatherStation.UnsubscribedHearsNothing | 03-comportamiento/06.2-observer.ts:42-60 | an unsubscribed app receives no later update |
| WeatherStation.DemoOpening | 03-comportamiento/06.2-observer.ts:92-96 | both apps hear 'Soleado' on subscribing and then 'Lluvioso' |
| WeatherStation.DemoLateSubscriber | 03-comportamiento/06.2-observer.ts:99-100 | the late tracker's first update is 'Lluvioso', and 'Nublado' reaches all three |
| WeatherStation.DemoUnsubscribe | 03-comportamiento/06.2-observer.ts:103-104 | after React Native leaves, only Flutter and the tracker receive 'Tormenta eléctrica' |
| ChatRoom.AddUser | 03-comportamiento/04-mediator.ts:24-26 | appends exactly the given user at the end, even one already registered, and keeps the title |
| ChatRoom.JoinedUserHearsOthers | 03-comportamiento/04-mediator.ts:44-49 | the `User` constructor registers the user through `addUser`, so it then receives every message another user sends |
| ChatRoom.SendMessage | 03-comportamiento/04-mediator.ts:28-37 | one delivery to each registered user except the sender, in join order; the sender never receives it |
| ChatRoom.EveryoneElseReceives | 03-comportamiento/04-mediator.ts:28-37 | a user receives the message iff it is registered and not the sender |
| ChatRoom.DemoScenario | 03-comportamiento/04-mediator.ts:69-78 | with three users, each message reaches exactly the other two, in join order |
| MagicPortal.SecretRoomEnter | 02-estructurales/07-proxy.ts:30-36 | the secret room itself admits any player, by name |
| MagicPortal.Enter | 02-estructurales/07-proxy.ts:45-55 | the secret room is entered iff the level is at least 10; otherwise the player is refused with its level |
| MagicPortal.AdmissionMonotone | 02-estructurales/07-proxy.ts:46 | any player at least as strong as an admitted one is admitted |
| MagicPortal.DemoScenario | 02-estructurales/07-proxy.ts:58-69 | level 5 is refused and level 15 admitted |
| DocumentProxy.DocumentDisplay | 02-estructurales/07.2-proxy.ts:22-33 | the confidential document itself always shows its content |
| DocumentProxy.DisplayContent | 02-estructurales/07.2-proxy.ts:46-61 | the document is shown iff the user's role is among the required roles; otherwise the user is denied and the document is not reached |
| DocumentProxy.DefaultDeniesEveryone | 02-estructurales/07.2-proxy.ts:41-44 | with the default empty role list everyone is denied |
| DocumentProxy.MoreRolesNeverRevoke | 02-estructurales/07.2-proxy.ts:46-50 | adding required roles never takes access away |
| DocumentProxy.DemoScenario | 02-estructurales/07.2-proxy.ts:85-99 | with ['admin'], Juan ('user') is denied and Ana ('admin') sees the content |
| ConfigManager.SetConfig | 01-creacionales/singleton/config-manager.ts:4-6 | binds or overwrites the key and leaves every other key alone |
| ConfigManager.GetConfig | 01-creacionales/singleton/config-manager.ts:8-10 | the bound value iff the key was set, and nothing otherwise |
| ConfigManager.GetAllConfig | 01-creacionales/singleton/config-manager.ts:12-14 | the copy answers every lookup as the store does |
| ConfigManager.GetAfterSet | 01-creacionales/singleton/config-manager.ts:4-10 | a get right after a set returns the value set, and other keys read as before |
| ConfigManager.OverwriteWins | 01-creacionales/singleton/config-manager.ts:5 | the last write to a key wins |
| ConfigManager.DistinctWritesCommute | 01-creacionales/singleton/config-manager.ts:4-6 | writes to different keys commute |
| RemoteControl.Execute | 03-comportamiento/02-command.ts:43-73 | each command performs exactly its own device call |
| RemoteControl.SetCommand | 03-comportamiento/02-command.ts:78-80 | binds the button, replacing any earlier binding, and leaves other buttons alone |
| RemoteControl.PressButton | 03-comportamiento/02-command.ts:82-89 | a bound button runs its command exactly once; an unbound one runs none |
| RemoteControl.PressAfterBind | 03-comportamiento/02-command.ts:78-86 | pressing a button right after binding it runs the new command |
| RemoteControl.BindIsLocal | 03-comportamiento/02-command.ts:78-89 | binding one button does not change what another does |
| RemoteControl.DemoScenario | 03-comportamiento/02-command.ts:104-108 | '1' turns the light on, '2' off, '3' starts the fan, '4' stops it, and any other button has nothing assigned |
| EmissionCheck.Passes | 03-comportamiento/10.2-visitor.ts:144-160 | a vehicle passes iff it is strictly newer than its kind's year limit and strictly under its kind's mileage limit, as the `Limits` table lists them: a car passes iff year > 2000 and km < 200000, a motorcycle iff year > 2005 and km < 100000, a truck iff year > 2010 and km < 300000 |
| EmissionCheck.PassesMonotone | 03-comportamiento/10.2-visitor.ts:144-160 | a newer vehicle of the same kind with fewer kilometres passes too |
| EmissionCheck.LoadIrrelevant | 03-comportamiento/10.2-visitor.ts:156-158 | a truck's load capacity plays no part |
| EmissionCheck.CheckAll | 03-comportamiento/10.2-visitor.ts:174-176 | one verdict per vehicle, in order |
| EmissionCheck.DemoScenario | 03-comportamiento/10.2-visitor.ts:163-177 | the 2000 car fails, the motorcycle and the truck pass |
| PokemonPrototype.Pokemon.Clone | 01-creacionales/04.2-prototype.ts:27-29 | the clone is a new object with a new attack list, equal in every field to the original |
| PokemonPrototype.CloneThenModify | 01-creacionales/04.2-prototype.ts:27-29 | the clone copies every field and the attack list; renaming it, relevelling it and adding an attack leave the original exactly as it was |
| PokemonPrototype.DemoScenario | 01-creacionales/04.2-prototype.ts:45-60 | Charmander keeps its two attacks while its clone becomes Charmeleon at level 16 with 'Lanzallamas' added |
| DocumentPrototype.DocumentClass.Clone | 01-creacionales/04-prototype.ts:24-26 | the clone is a new object with the same title, content and author |
| DocumentPrototype.CloneThenRetitle | 01-creacionales/04-prototype.ts:24-26 | the clone copies title, private content and author; retitling it leaves the original alone |
| DocumentPrototype.DemoScenario | 01-creacionales/04-prototype.ts:37-47 | the quote keeps its title while the clone is 'Nueva cotizacion' with the same content and author |
| Lists.RemoveAll | 03-comportamiento/06-observer.ts:37 | the removed reference is gone and the list does not grow |
| Lists.RemoveAllAbsent | 03-comportamiento/06-observer.ts:37 | removing a reference that is not listed changes nothing |
| Lists.RemoveAllMembers | 03-comportamiento/04-mediator.ts:29 | exactly the other elements survive the filter |
| Lists.RemoveAllCounts | 03-comportamiento/06.2-observer.ts:43 | every other element keeps its multiplicity |
| Lists.RemoveAllAppend | 03-comportamiento/06-observer.ts:37 | filtering distributes over concatenation, so survivors keep their order |
| Lists.RemoveAllIdempotent | 03-comportamiento/06-observer.ts:37 | filtering twice is filtering once |
| Strings.Join | 01-creacionales/01.2-builder.ts:49-54 | `join` of no parts is empty and of one part is that part |
| Strings.JoinSnoc | 01-creacionales/01.2-builder.ts:49-54 | joining one more part appends the separator and the part |
| Strings.ToLower | 02-estructurales/06-flyweight.ts:48 | same length, every character lowered, no upper-case letter left |
| Strings.ToLowerIdempotent | 02-estructurales/06-flyweight.ts:48 | lowering twice is lowering once |
| Strings.NatToStringRoundTrip | 01-creacionales/01.2-builder.ts:56 | the decimal rendering of a count reads back as the same number |
| Strings.IntToString | 01-creacionales/01.2-builder.ts:56 | a leading '-' iff the number is negative, then the decimal digits of its magnitude |
| Strings.IntToStringInjective | 01-creacionales/01.2-builder.ts:56 | different limits render differently |

## Left out

- Console output: `console.log`, `console.clear`, colours, `%c` styles and the message wording. Every message is an outcome value or a trace event.
- The interactive parts: the `prompt` menus and the `sleep` loop in the vending machine and the remote control demos. The model takes the chosen actions as a sequence.
- Static lazy initialisation: `getInstance` is not modelled. "One shared instance" is one state value threaded through the calls, which is what two references to the same object see.
- The visitor's maintenance costs and the other visitor's discounts, which are floating-point arithmetic with `toFixed(2)`.
- Strings.ToLower: lowers ASCII letters only. JavaScript's `toLowerCase` also lowers non-ASCII letters, and no demo input contains any.
- Strings.IntToString: renders integers only. A JavaScript number may also be fractional, `NaN` or use an exponent, and the query limit is only ever an integer in the demo.
- JavaScript `number` becomes Dafny `int` for the approval amount, the player level, the game's level and health, the vehicle year and mileage, the iterator index and position, the query limit, and the editor state's `cursorPosition`. Fractional values and `NaN` are not modelled: in the source `getPokemonAt(1.5)` passes the bounds check and returns `undefined`, and a `NaN` amount fails both approval limits and reaches the Director. Every demo uses integers only.
- QueryBuilder.LimitPart: uses JavaScript truthiness for integers only (0 means "no limit"). `NaN` is falsy too and is not modelled.
- Keys inherited from `Object.prototype` (a button or location type named `constructor`, say) are not modelled. In the source `Record` lookups would find them: `pressButton('constructor')` would then fail to call `execute`, and the flyweight factory would hand out a non-icon. Each record is modelled as a map holding only the keys set.
- Chain.Walk: has a fuel bound. Cyclic `setNext` chains (which would recurse without end in the source) are cut off after `fuel` steps. The demos' chains are acyclic and of length 3.
- Flyweight.GetLocationIcon: icons are values, so "the identical object" is modelled as "an equal value returned from the cache". `RepeatedRequestShared` states that the cache hands back its stored entry.
- ConfigManager.GetAllConfig: maps are values, so the copy cannot alias the store by construction. Independence of the copy holds trivially and is not a separate proof.
- ConfigManager.GetConfig: the source declares `string | null` but returns `undefined` for a missing key. Both are modelled as `None`.
- The pure object-wiring demos with only printed output (strategy, bridge, template method, facade, abstract factory, the factory methods and factory function, the adapter's logger) have no logic to state.
- The generator-based iterators (`yield*` wrappers) and the driver script that only calls the config store.
- `displayInfo`/`displayConfiguration`/`displayState` (including the GPU's "No GPU" fallback), which only print.
- The constructor of the Pokémon prototype stores the attacks array it is given without copying it. The model keeps this aliasing, but only `clone`'s independence is proved.
