# Conversation store of the sign-language kiosk front end

This project models the client-side state store of the kiosk application
(`AppProvider` in `App/src/contexts/AppContext.js`). The store holds five
fields: the conversation list, the message being typed, the user type
(`staff` for a bank clerk, `customer` for a deaf customer), the recognition
status, and the feedback form. The screens change them through four
transitions:

- `addMessage` appends a message `{id, text, sender, timestamp}` and returns its id.
- `editMessage` rewrites the text of every message with a given id.
- `toggleUserType` switches between staff and customer.
- `clearConversations` empties the list.

Everything lives in one module, `AppContext` (`app_context.dfy`). The class
`AppContext.AppProvider` has the five fields, and its methods replace them the
way the source's setter calls do. Each new value is given by a pure function:
`Appended`, `Edited` or `Toggled`. The properties the store promises are
proved as lemmas about those functions.

Message ids are millisecond clock readings, so they are not unique. The model
does not assume they are: `Edited` rewrites every message carrying the id,
and `SameMillisecondEditHitsBoth` shows two messages being rewritten by one
edit.

The two clock reads in `addMessage` are inputs to `AppProvider.AddMessage`.
`nowMillis` stands for the millisecond clock that gives the id, and `isoNow`
for the ISO-8601 string that gives the timestamp. They are separate
parameters because the source reads the clock twice.

## Model

| member | source | states |
|---|---|---|
| `AppContext.AppProvider.constructor` | App/src/contexts/AppContext.js:9-24 | the store starts with an empty conversation, empty current message, user type `staff`, status `idle` and feedback `{satisfaction: 0, comment: ''}` |
| `AppContext.AppProvider.AddMessage` | App/src/contexts/AppContext.js:27-37 | the new list is the old one with `Message(nowMillis, message, sender, isoNow)` appended; the returned id is the clock reading `nowMillis`; the other four fields are unchanged |
| `AppContext.Appended` | App/src/contexts/AppContext.js:35 | the list grows by exactly one; the new message is last; the earlier prefix is the old list, in the same order |
| `AppContext.AppendedIds` | App/src/contexts/AppContext.js:35 | after an append the id sequence is the old id sequence followed by the new message's id |
| `AppContext.AppProvider.EditMessage` | App/src/contexts/AppContext.js:40-46 | the new list is `Edited` of the old one; the other four fields are unchanged |
| `AppContext.Retexted` | App/src/contexts/AppContext.js:43 | one element after the mapping callback: id, sender and timestamp kept; text is the new text exactly when the element's id matches, otherwise the old text |
| `AppContext.Edited` | App/src/contexts/AppContext.js:41-45 | the edit preserves the list's length |
| `AppContext.EditedAt` | App/src/contexts/AppContext.js:42-44 | the edit works position by position: element k of the result is element k of the input after the callback |
| `AppContext.EditedSpec` | App/src/contexts/AppContext.js:42-44 | every message with the id gets the new text; ids, senders and timestamps of all messages are kept; messages with another id are untouched |
| `AppContext.EditedKeepsIds` | App/src/contexts/AppContext.js:42 | the edit keeps the id sequence, so order is preserved |
| `AppContext.EditedUnchangedIff` | App/src/contexts/AppContext.js:43 | the edit leaves the list equal to the old one if and only if every message with the id already has the new text |
| `AppContext.EditedAbsent` | App/src/contexts/AppContext.js:43 | when no message has the id, the list is unchanged |
| `AppContext.EditedIdempotent` | App/src/contexts/AppContext.js:41-45 | applying the same edit twice gives the same list as applying it once |
| `AppContext.EditedAppended` | App/src/contexts/AppContext.js:35-44 | editing after an append is the same as editing the old list and the new message separately |
| `AppContext.SameMillisecondEditHitsBoth` | App/src/contexts/AppContext.js:29-44 | two messages added in the same millisecond share an id, and editing by the id the second add returned rewrites both |
| `AppContext.Toggled` | App/src/contexts/AppContext.js:50 | the result is always `staff` or `customer`; it is `customer` exactly when the input is `staff` |
| `AppContext.ToggledInvolution` | App/src/contexts/AppContext.js:50 | toggling twice returns the original value when it is `staff` or `customer` |
| `AppContext.ToggledTwiceOther` | App/src/contexts/AppContext.js:50 | any other value becomes `staff` and then `customer`, so the involution holds only on the two user types |
| `AppContext.AppProvider.ToggleUserType` | App/src/contexts/AppContext.js:49-51 | the user type becomes `Toggled` of the old one; the conversation, current message, status and feedback are unchanged |
| `AppContext.AppProvider.ClearConversations` | App/src/contexts/AppContext.js:54-56 | the list becomes empty whatever it held, so a second clear changes nothing; the other four fields are unchanged |
| `AppContext.AppProvider.SetCurrentMessage` | App/src/contexts/AppContext.js:12 | raw setter: the current message becomes the given value and nothing else changes |
| `AppContext.AppProvider.SetUserType` | App/src/contexts/AppContext.js:15 | raw setter: the user type becomes the given value, which may be neither user type |
| `AppContext.AppProvider.SetRecognitionStatus` | App/src/contexts/AppContext.js:18 | raw setter: the recognition status becomes the given value |
| `AppContext.AppProvider.SetFeedback` | App/src/contexts/AppContext.js:21-24 | raw setter: the feedback becomes the given value |

## Left out

- The React context wiring (`createContext`, `useAppContext`, rendering the `Provider`) is not modelled. It is framework plumbing with no data logic.
- React applies setter updates asynchronously and may batch them. The model applies each transition at once, in call order. `addMessage` in the source returns the id before the list update is committed; the model returns it after.
- The clock (`Date.now()`, `new Date().toISOString()`) is not modelled. The caller supplies both readings, and nothing relates the ISO string to the millisecond value.
- Ids are modelled as unbounded integers. The source compares them with `===`, so an id of another JavaScript type (a string, say) never matches. The model's typing rules that case out.
- `SetUserType`, `SetRecognitionStatus`, `SetFeedback`: they take any value of the field's type. The model does not restrict the status to `idle`/`recording`/`processing` or the satisfaction score to a range, because the source does not either.
- `SetFeedback`, `SetUserType`, `SetRecognitionStatus`, `SetCurrentMessage`: the source's setters accept any JavaScript value, for example a feedback object of another shape or a non-integer score. The model fixes the feedback form to an integer score and a string comment, and the other three fields to strings.
- `SetFeedback`, `SetUserType`, `SetRecognitionStatus`, `SetCurrentMessage`: no setter takes an updater function `prev => ...`. Because the model applies updates one after another, calling a setter with an updater `f` is the same as passing `f(old)`.
- The screens, navigation, upload and recognition backend, and feedback persistence are not part of this model. The store does not call them.
