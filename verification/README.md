# Task list: a verified model of the task table, the client store and the wire format

This project models the core of a small task-management application in Dafny:

- **The server's task table** (`server/todo_service.py`). A module-level Python list of task
  dicts with `get_tasks`, `add_task`, `update_task` and `delete_task`. It is modelled as the class
  `TodoService.TodoTable`, whose field `tasks: seq<map<string, Value>>` the methods change.
  `task['id']` on a dict without an `'id'` key raises `KeyError`, and the model keeps that error path.
- **The client's task store** (`client/src/hooks/useTasks.ts`, the `useTasks` hook). It holds the
  task list and the loading flag. It is modelled as the class `UseTasks.TaskStore`. Each operation
  receives the outcome of its API call as a `Result` (success value or thrown error). It then
  replaces, appends, replaces by id or filters by id. On failure it keeps the list, records a failure
  notification and rethrows, except for loading. Notifications are kept in a ghost log.
- **The wire format** (`client/src/services/api.ts`). It converts between domain tasks, whose dates
  are JavaScript `Date` values, and wire tasks, whose dates are `YYYY-MM-DD` strings. It also builds
  the JSON body of an update request. A `Date` is modelled as a UTC calendar day plus a time of day,
  or the Invalid Date. `toISOString().split('T')[0]` is the ISO 8601 calendar date of the UTC day
  (the `full-date` of section 5.6 of RFC 3339). `new Date("YYYY-MM-DD")` is UTC midnight of that day.
  Object spread is right-biased map union. `JSON.stringify` drops keys whose value is `undefined`.
- **The page helpers** (`client/src/pages/Index.tsx`). These are the status label and colour maps,
  JavaScript's `trim`, and the records built for a new task from the quick-add box and from the
  detailed form.

Modules: `Wrappers` (Option, Result), `Digits` (decimal and zero-padded digit fields), `Sequences`
(order-preserving filter), `IsoDate` (calendar days and `YYYY-MM-DD`), `TodoService`, `Api`,
`UseTasks`, `IndexPage`.

The code behaves as follows in these places, and the model does the same:

- A `null` date in an update is omitted from the request body. It is not sent as an explicit clear,
  because `updates.startDate ? ... : undefined` treats `null` like an absent field.
- The request body `{ id, ...taskUpdate }` takes its `id` from `updates` when `updates` carries one,
  because the spread comes after `id`.
- The store replaces every element whose id matches.
- An empty wire date string reads as `null`, because the truthiness check treats `""` as false.

## Model

| member | source | states |
|---|---|---|
| TodoService.TodoTable.constructor | server/todo_service.py:1 | the table starts empty |
| TodoService.TodoTable.GetTasks | server/todo_service.py:3-4 | returns the stored list and changes nothing |
| TodoService.TodoTable.AddTask | server/todo_service.py:6-8 | the list becomes the old list plus the task at the end (no duplicate-id check); returns the same task |
| TodoService.FirstMatch | server/todo_service.py:11-12 | the scan stops at the first task whose id equals `task_id`, or at the first task without an id (KeyError), or finds none; every earlier task has an id different from `task_id` |
| TodoService.FirstMatchAt | server/todo_service.py:11-12 | once a prefix of tasks with non-matching ids ends at position i, the scan result is a match at i or a KeyError at i |
| TodoService.Merge | server/todo_service.py:13 | `dict.update`: keys of the update take its values, all other keys keep their old values, the key set is the union |
| TodoService.TodoTable.UpdateTask | server/todo_service.py:10-15 | on the first match only that element becomes old merged with the update and is returned; length and all other elements, including later ones with the same id, are unchanged; no match returns None with the list unchanged; KeyError leaves the list unchanged |
| TodoService.Remaining | server/todo_service.py:19 | the comprehension succeeds exactly when every task has an id; it then keeps exactly the tasks whose id differs, and drops all matches |
| TodoService.RemainingNoMatch | server/todo_service.py:19 | deleting an id no task carries leaves the list unchanged |
| TodoService.RemainingIdempotent | server/todo_service.py:19 | deleting the same id twice equals deleting it once |
| TodoService.RemainingConcat | server/todo_service.py:19 | deletion distributes over concatenation, so surviving tasks keep their relative order |
| TodoService.TodoTable.DeleteTask | server/todo_service.py:17-19 | the list is rebound to the comprehension's result; on KeyError it is left unchanged |
| Sequences.Filter | server/todo_service.py:19 | every kept element is from the input and satisfies the condition; every input element that satisfies it is kept; never longer than the input |
| Sequences.FilterConcat | client/src/hooks/useTasks.ts:73 | filtering distributes over concatenation (order is preserved) |
| Sequences.FilterKeepsAll | client/src/hooks/useTasks.ts:73 | when every element passes, the filter is the identity |
| Sequences.FilterIdempotent | client/src/hooks/useTasks.ts:73 | filtering twice equals filtering once |
| Sequences.Dropped | client/src/hooks/useTasks.ts:73 | the number of failing elements; zero exactly when all pass |
| Sequences.FilterLength | client/src/hooks/useTasks.ts:73 | the filter's length is the input length minus the number of failing elements |
| UseTasks.TaskStore.constructor | client/src/hooks/useTasks.ts:7-8 | the store starts with no tasks and `loading` true |
| UseTasks.TaskStore.LoadTasks | client/src/hooks/useTasks.ts:11-26 | success replaces the list with the fetched one; failure keeps it and records one destructive notification without rethrowing; `loading` is false at the end either way |
| UseTasks.TaskStore.AddTask | client/src/hooks/useTasks.ts:28-46 | success appends the returned task after all existing ones and returns it; failure keeps the list, records a destructive notification and rethrows the same error |
| UseTasks.ReplaceById | client/src/hooks/useTasks.ts:51-53 | same length; every element whose id equals `id` becomes the returned task, every other element is unchanged in place |
| UseTasks.ReplaceByIdIdempotent | client/src/hooks/useTasks.ts:51-53 | applying the same replacement twice equals applying it once |
| UseTasks.ReplaceByIdNoMatch | client/src/hooks/useTasks.ts:51-53 | with no matching id the list is unchanged |
| UseTasks.TaskStore.UpdateTask | client/src/hooks/useTasks.ts:48-68 | success replaces by id; failure keeps the list, records a destructive notification and rethrows |
| UseTasks.RemoveById | client/src/hooks/useTasks.ts:73 | keeps exactly the tasks whose id differs from `id` |
| UseTasks.RemoveByIdConcat | client/src/hooks/useTasks.ts:73 | removal distributes over concatenation, so kept tasks stay in order |
| UseTasks.RemoveByIdNoMatch | client/src/hooks/useTasks.ts:73 | removing an absent id changes nothing |
| UseTasks.Carrying | client/src/hooks/useTasks.ts:73 | the number of tasks the deletion filter drops; zero exactly when no task carries `id` |
| UseTasks.RemoveByIdKeepsLength | client/src/hooks/useTasks.ts:73 | deletion leaves the list length unchanged exactly when no task carries `id`, and otherwise shortens it by the number of tasks that do |
| UseTasks.RemoveByIdIdempotent | client/src/hooks/useTasks.ts:73 | removing twice equals removing once |
| UseTasks.TaskStore.DeleteTask | client/src/hooks/useTasks.ts:70-87 | success removes by id; failure keeps the list, records a destructive notification and rethrows |
| Digits.Decimal | client/src/pages/Index.tsx:38 | the rendering is all digits, non-empty, and starts with '0' only for zero |
| Digits.DecimalRoundTrip | client/src/pages/Index.tsx:38 | reading back the rendering of n gives n |
| Digits.DecimalInjective | client/src/pages/Index.tsx:38 | different numbers have different renderings |
| Digits.FixedWidthValue | client/src/services/api.ts:31 | a number that fits in w digits is read back from its zero-padded field |
| Digits.FixedWidthOfValue | client/src/services/api.ts:42 | any field of w digits is the zero-padded rendering of the number it denotes |
| IsoDate.FullDate | client/src/services/api.ts:31 | a valid day formats to 10 characters `YYYY-MM-DD` with dashes at positions 4 and 7 |
| IsoDate.ParseFullDate | client/src/services/api.ts:42 | only a well-shaped `YYYY-MM-DD` naming a real day parses |
| IsoDate.ParseOfFullDate | client/src/services/api.ts:31-32 | parsing the formatted day gives back the day |
| IsoDate.FullDateOfParse | client/src/services/api.ts:42-43 | formatting a parsed day gives back the string |
| IsoDate.FullDateInjective | client/src/services/api.ts:31-32 | different days format differently |
| IsoDate.NewDate | client/src/services/api.ts:42-43 | `new Date(s)` is a valid instant exactly for a real `YYYY-MM-DD` day, at midnight of that day; anything else is the Invalid Date |
| IsoDate.IsoDateOf | client/src/services/api.ts:31-32 | throws exactly for the Invalid Date; otherwise the string reads back as midnight of the same UTC day (time of day is dropped) |
| IsoDate.IsoDateOfNewDate | client/src/services/api.ts:31-32 | a `YYYY-MM-DD` string read as a date and written back is the same string |
| Api.WireDate | client/src/services/api.ts:31-32 | `null` stays `null`; a valid date becomes the string of its UTC day; the Invalid Date throws |
| Api.DomainDate | client/src/services/api.ts:42-43 | `null` and the empty string give `null`; a `YYYY-MM-DD` string gives UTC midnight of that day |
| Api.ConvertToApiFormat | client/src/services/api.ts:26-34 | copies code, title, description, type and status; has no id; null dates stay null, present dates become their UTC day; throws exactly when a date is invalid |
| Api.ConvertFromApiFormat | client/src/services/api.ts:36-45 | copies id, code, title, description, type and status; a date is null exactly when the wire date is null or empty, and each date is what `DomainDate` reads from its wire string |
| Api.WireRoundTrip | client/src/services/api.ts:26-45 | wire to domain to wire returns every field unchanged, except that an empty date string comes back as null |
| Api.DomainRoundTrip | client/src/services/api.ts:26-45 | domain to wire to domain keeps every field and moves each date to UTC midnight of its day |
| Api.UpdateDate | client/src/services/api.ts:86-87 | a date object becomes its `YYYY-MM-DD` string, `null` or absent becomes `undefined`, the Invalid Date throws |
| Api.TaskUpdate | client/src/services/api.ts:84-90 | throws exactly when a supplied date is invalid; the object holds no date objects |
| Api.TaskUpdateAt | client/src/services/api.ts:84-90 | key by key: the domain date keys are `undefined`, the wire date keys hold the converted dates, every other key is copied from the updates |
| Api.Stringify | client/src/services/api.ts:97 | keys whose value is `undefined` are dropped; `null` and strings are kept as they are |
| Api.UpdateBody | client/src/services/api.ts:84-97 | the body never carries `startDate`/`endDate`; it carries `id` unless the updates hold an explicit `undefined` id, taking the updates' id over the argument when present; it throws exactly when a supplied date is invalid |
| Api.UpdateBodyText | client/src/services/api.ts:85 | a text field is in the body exactly when the updates supply it as a string, with the same value |
| Api.UpdateBodyDate | client/src/services/api.ts:86-87 | `start_date`/`end_date` is in the body exactly when the update holds a date object, as its `YYYY-MM-DD`; a null date is omitted, not sent as a clear |
| IndexPage.StatusColor | client/src/pages/Index.tsx:80-88 | the grey default is returned exactly for inputs outside the four statuses |
| IndexPage.StatusColorsDistinct | client/src/pages/Index.tsx:80-88 | the four statuses get four different colours |
| IndexPage.StatusText | client/src/pages/Index.tsx:90-98 | the input is returned unchanged exactly when it is not one of the four statuses |
| IndexPage.StatusTextsDistinct | client/src/pages/Index.tsx:90-98 | the four statuses get four different labels |
| IndexPage.TrimStart | client/src/pages/Index.tsx:35 | the first half of `trim`: the result is a suffix with no leading whitespace, and everything removed was whitespace |
| IndexPage.TrimEnd | client/src/pages/Index.tsx:56 | the second half of `trim`: the result is a prefix with no trailing whitespace, and everything removed was whitespace |
| IndexPage.Trim | client/src/pages/Index.tsx:35 | `trim`, also called at line 56: the result is a contiguous slice of the input with only whitespace cut off before and after it, and it neither starts nor ends with whitespace |
| IndexPage.TrimEmptyIffBlank | client/src/pages/Index.tsx:35 | a string trims to empty exactly when it is all JavaScript whitespace |
| IndexPage.TaskCode | client/src/pages/Index.tsx:38 | the code is "T-" followed by the decimal digits of count + 1 with no leading zero |
| IndexPage.TaskCodeInjective | client/src/pages/Index.tsx:60 | different counts give different automatic codes |
| IndexPage.QuickTask | client/src/pages/Index.tsx:34-45 | nothing exactly when the text is blank; otherwise code T-(count+1), the untrimmed text as title, empty description, type "other" (one of the task types), start now, no end date, status pending (one of the statuses) |
| IndexPage.DetailedTask | client/src/pages/Index.tsx:55-61 | nothing exactly when the title is blank; otherwise every form field is kept, and the code is replaced by T-(count+1) only when it is empty, so it is never empty |

## Left out

- The HTTP calls of `apiService` (`fetch`, headers, status checks, `response.json()`, logging) are
  I/O. Their outcome is an input `Result` of each store method. The task data sent by `addTask` is
  therefore not a parameter of `UseTasks.TaskStore.AddTask`.
- React machinery (`useState`, `useEffect`, `useToast`, rendering and form state) is UI, and the
  hook's `console.error` logging in each failure branch is console output. The effect
  that runs `loadTasks` once on mount is the caller invoking `LoadTasks` after construction. The
  toast log is ghost state.
- Races between overlapping asynchronous operations are not modelled. Each store operation is one
  atomic step, and the functional `setTasks` updaters are applied to the state at that step.
- Python aliasing is not modelled. `get_tasks` and `add_task` return the very list and dict that
  later updates mutate; the model returns values.
- Task dict values are `None`, strings and integers. Booleans, floats and nested values are not
  modelled, so Python's cross-type equality (`True == 1`) does not arise.
- `IsoDate.NewDate`: JavaScript also accepts `YYYY`, `YYYY-MM`, date-time strings, expanded
  six-digit years and implementation-specific formats. The model treats every non-empty string that
  is not a real `YYYY-MM-DD` day as the Invalid Date.
- Dates are limited to the years 0000 to 9999, which `toISOString` writes with four digits. Its
  six-digit expanded form for other years is not modelled.
- `format` from date-fns (display as `dd/MM/yyyy`) is a foreign library used only in rendering.
- Object keys in the update path are the ten field names the code uses (`Api.Key`). JSON key order
  is not modelled. An update key that is present with the value `undefined` is modelled, since it
  can suppress `id`.
- `server/agent_service.py` (an OpenAI function-calling wrapper) and `server/main.py` (FastAPI
  routing) are not part of this model.
