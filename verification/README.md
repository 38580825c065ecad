# Notification system: a verified model

This project models the notification pipeline of `NotificationSystem.java` in
three parts.

- **Decorator chain** (module `Notifications`). A notification is a plain text
  (`SimpleNotification`) wrapped in any number of time-stamp and signature
  decorators (`TimeStampDecorator`, `SignatureDecorator`). `Render` gives the
  content of a chain. The signature decorator prefixes `"Sample signature "`.
  The time-stamp decorator prefixes a clock reading and a space. The wall clock
  is a parameter: `clock(k)` is the k-th formatted reading and `tick` is the
  next reading to be taken. Each time-stamp layer takes one reading per
  rendering, the outermost layer first.
- **Observable** (module `Observers`, class `NotificationObservable`). It holds
  the ordered observer list and the current notification (`None` stands for
  Java's null). `AddObserver` appends without a uniqueness check.
  `RemoveObserver` removes the first occurrence only. `NotifyObserver` returns
  the observers whose `update` it calls, in call order.
- **Observers** (classes `Logger` and `NotificationEngine`). Each keeps a fixed
  reference to its observable. `Logger.Update` returns the line it would print.
  `NotificationEngine.Update` reads the current content once and returns the
  deliveries it makes: one `(strategy, content)` pair per registered strategy,
  in registration order. Strategies are opaque identities.

Reading the current content requires a current notification. The source never
assigns `currentNotification`, so in the program as written that field stays
null and every `update` would throw. The model states the requirement as a
precondition and adds no setter.

## Model

| member | source | states |
|---|---|---|
| `Notifications.Render` | NotificationSystem.java:16-57 | the content of any chain is its decorators' prefixes, outermost first (`"Sample signature "`, or a clock reading and a space, each time stamp taking the next reading), followed by the plain text, so the plain text always ends the content |
| `Notifications.RenderReadsOnlyItsStamps` | NotificationSystem.java:43-46 | a rendering depends only on the `Stamps(n)` clock readings it takes |
| `Notifications.RenderWithoutStampsIsStable` | NotificationSystem.java:16-58 | a chain without a time stamp renders to the same text on every call |
| `Notifications.Decorate` | NotificationSystem.java:29-35 | wrapping gives a decorator whose inner notification is the wrapped one |
| `Notifications.ChainOfLayers` | NotificationSystem.java:29-58 | every notification is the chain of its own decorators around its own plain text |
| `Notifications.LayersOfChain` | NotificationSystem.java:29-58 | the decorators and the plain text of a built chain read back unchanged |
| `Notifications.RenderDecorate` | NotificationSystem.java:42-57 | one decorator puts its own prefix in front of its inner content |
| `Notifications.RenderChain` | NotificationSystem.java:42-57 | stacked decorators render their prefixes outermost first, followed by the plain text |
| `Notifications.SignedThenStamped` | NotificationSystem.java:37-57 | signed, then time-stamped text renders as reading, space, `"Sample signature "`, text |
| `Notifications.RenderAsWritten` | NotificationSystem.java:43-57 | as written, a chain renders if and only if it holds no time stamp; any time stamp throws on the null formatter |
| `Notifications.RenderAsWrittenAgreesWithoutStamps` | NotificationSystem.java:43-57 | where the chain as written renders, it gives the same text as the corrected rendering |
| `Notifications.StampedNotificationThrows` | NotificationSystem.java:44 | as written, one time stamp around a plain notification throws |
| `Observers.FirstIndex` | NotificationSystem.java:87-89 | the index found holds the observer, and no earlier index does |
| `Observers.RemoveFirst` | NotificationSystem.java:87-89 | removal splices out the first occurrence only and keeps the others in order; it is a no-op when the observer is absent |
| `Observers.RemoveFirstMultiset` | NotificationSystem.java:87-89 | removal takes away exactly one subscription of the observer if it has any, and no other subscription |
| `Observers.RemoveFirstAfterAppend` | NotificationSystem.java:82-89 | adding then removing an observer restores the list when it was absent; when it was present, the earlier entry goes and the new one stays at the end |
| `Observers.FanOut` | NotificationSystem.java:134-140 | the i-th delivery goes to the i-th registered strategy and carries the given content |
| `Observers.FanOutAfterAppend` | NotificationSystem.java:129-140 | one more registration adds exactly one delivery at the end and changes no earlier delivery |
| `Observers.FanOutMultiplicity` | NotificationSystem.java:134-140 | a strategy gets one delivery per registration, and every delivery carries the same content |
| `Observers.NotificationObservable.constructor` | NotificationSystem.java:78-79 | a new observable has no observers and a null current notification |
| `Observers.NotificationObservable.AddObserver` | NotificationSystem.java:82-84 | the observer list becomes the old list with the observer appended, duplicates allowed |
| `Observers.NotificationObservable.RemoveObserver` | NotificationSystem.java:87-89 | the observer list becomes the old list with the first occurrence removed |
| `Observers.NotificationObservable.NotifyObserver` | NotificationSystem.java:92-96 | update is called once per list entry, in list order, so a duplicated observer is updated twice |
| `Observers.NotificationObservable.GetNotification` | NotificationSystem.java:98-100 | returns the current notification, null included |
| `Observers.NotificationObservable.GetNotificationContent` | NotificationSystem.java:102-104 | requires a current notification and returns its content at the given clock readings |
| `Observers.Logger.constructor` | NotificationSystem.java:110-112 | the logger watches the given observable |
| `Observers.Logger.Update` | NotificationSystem.java:115-117 | the logged line is `"New notification: "` followed by the current content |
| `Observers.NotificationEngine.constructor` | NotificationSystem.java:125-127 | the engine watches the given observable and has no strategies |
| `Observers.NotificationEngine.AddNotificationStrategy` | NotificationSystem.java:129-131 | the strategy list becomes the old list with the strategy appended |
| `Observers.NotificationEngine.Update` | NotificationSystem.java:134-140 | the content is read once, and that identical text goes to every registered strategy once, in registration order |

## Findings

| source | as written | input that shows it | evidently intended | confidence | as-written member | corrected member |
|---|---|---|---|---|---|---|
| NotificationSystem.java:44 | `LocalDateTime.now().format(null)` passes a null formatter, and `format` rejects null with a `NullPointerException` before the inner content is read | `TimeStamp(Simple("x"))`: any chain that holds a time stamp | the formatted current time, a space, then the inner content | high; not executed | `Notifications.RenderAsWritten` | `Notifications.Render` |

`Notifications.RenderAsWritten` gives the behaviour as written, and
`StampedNotificationThrows` exhibits the failing input. `Notifications.Render`
is the corrected rendering, and the rest of the model uses it. Its contract
states the intended content: each time stamp contributes a clock reading and a
space in front of its inner content.

## Left out

- Console output: `Logger.update` and the e-mail, SMS and pop-up strategies print to standard output. The model records the logged line and the deliveries instead.
- The clock: the wall-clock read and its formatting are replaced by the `clock` parameter. The format of a reading is not modelled.
- Dynamic dispatch: `IObserver.update` and `INotificationStrategy.sendNotification` are not modelled as virtual calls. `NotifyObserver` returns the observers whose update it calls, and it does not run their updates. An observer's own update is the method of its class.
- Strategy kinds: the e-mail address, the phone number and the message texts of the three strategies are left out. A strategy is an opaque identity.
- `NotificationService` and `main` have empty bodies, so there is nothing to model in them.
- Null references: the model's texts, notifications and observer references are never null. In the source, a plain notification built with null text renders null, and a signature over it renders `"Sample signature null"`. A decorator built over null throws when rendered. `addObserver(null)` is accepted, and a later `notifyObserver` then throws. None of these cases is modelled.
- Observers.NotificationObservable.GetNotificationContent: requires a current notification. The source dereferences `currentNotification` without a check and throws when it is null. Because the source never assigns it, that is every call in the program as written.
- Observers.Logger.Update: requires a current notification on its observable, for the same reason. The source throws in that case.
- Observers.NotificationEngine.Update: requires a current notification on its observable, for the same reason. The source throws before any strategy is called.
- Exceptions thrown by an observer or a strategy during a notification are not modelled. The source has no handling for them.
