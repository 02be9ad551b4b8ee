# Grist host binding of the form-configuration widget

This project models `src/gristClient.ts`, the module that binds the
form-configuration widget to its host, the Grist spreadsheet application.
The module keeps two module-level variables: the Grist API object
(`gristApi`) and the id of the attached table (`currentTableId`). It has
three parts:

- `initGrist` detects the host and calls `ready` with full access and
  the column slots. If a row listener is given, it registers a records
  handler. That handler stores the table id and passes one row per mapped
  record to the listener.
- `createRowFromPayload` creates one row in the chosen table from a
  `{ label: value }` payload. The table is the explicit id, else the
  current id, else `Table1`.
- `columnsConfig`, the constant list of three column slots.

The host is abstract:

- Whether `window.grist` exists is a boolean parameter.
- `mapColumnNames` is a function parameter.
- What `getTable` answers and how `docApi.create` settles are parameters.
- `Number(r.id)` is a function parameter `idOf` from a record to an integer.
- The calls the widget makes on the host (`ready`, the `onRecords`
  registration, `docApi.create`) are kept in a call log. The log is part
  of the state, so "exactly one `ready`" and "no host call in standalone
  mode" can be stated.

Two modules:

- `GristSpec` (file `grist_spec.dfy`) holds the pure parts: the column
  slots, the choice of the target table under JavaScript `||` truthiness,
  and the conversion of records into rows. It also describes the module
  state as a value, `ClientState`, with one step function per operation,
  and proves lemmas about those steps and about runs of events.
- `GristClient` (file `grist_client.dfy`) holds class `Client`. Its fields
  are the module state. Its methods `InitGrist`, `OnRecords` and
  `CreateRowFromPayload` are proved to move the state exactly as the step
  functions do. `BuildFields` is the loop that copies the payload into the
  field set.

A `Client` also has two ghost fields that the source does not keep:
`listening` is true once a records handler is registered (the source leaves
that to the host, which holds the callback), and `calls` is the host-call
log.

The step functions `GristSpec.InitStep`, `GristSpec.RecordsStep` and
`GristSpec.CreateStep` are the reference definitions of `initGrist`, the
records handler and `createRowFromPayload`. The method rows below refer to
them, and the `InitEffect` and `CreateEffect` rows state what is proved
about them.

`createRowFromPayload` copies the payload with `fields[colName] = value`
into a plain `{}`. For the key `__proto__` that assignment runs the
prototype setter, which ignores a string, so that key never reaches the
host. The model drops it too (`GristSpec.FieldSet`).

## Model

| member | source | states |
|---|---|---|
| GristSpec.ColumnsConfig | src/gristClient.ts:10-15 | exactly three slots; slot i pairs the key `col<i+1>` with the title `Colonne <i+1>`, has type `Any` and is not optional; the keys are distinct |
| GristSpec.TargetTableId | src/gristClient.ts:105 | the explicit id if it is a non-empty string; otherwise the current id if it is non-null and non-empty; otherwise `Table1`; the result is never empty |
| GristSpec.ToRows | src/gristClient.ts:87-89 | one row per mapped record, in the same order, the i-th row's id taken from the i-th record |
| GristSpec.ReactToRecords | src/gristClient.ts:72-92 | if `mapColumnNames` gives null: no rows and the table id becomes null; otherwise one row per mapped record with its id, and the table id is the `tableId` from `getTable`, or null when `getTable` gives null |
| GristSpec.InitEffect | src/gristClient.ts:55-70 | with no host the state is unchanged (no `ready`, no registration, same `currentTableId`); with a host the API is set, exactly one `ready` call is added and it has `requiredAccess` full and `columns` = the column slots; exactly one records handler is registered if a listener is given and none if not; no `create` call; `currentTableId` is unchanged |
| GristSpec.CreateEffect | src/gristClient.ts:96-118 | with no host it completes normally and the state is unchanged (no `create`); with a host it adds exactly one `create` call, on the chosen table, with one record whose fields are the payload's keys other than `__proto__`, each with the payload's value; it fails with the host's own error exactly when `create` rejects; no other state changes |
| GristSpec.RecordsThenCreate | src/gristClient.ts:84-105 | after a records event, a row created with no explicit table goes to the attached table when the records were mapped and the table id is non-empty, and to `Table1` otherwise |
| GristSpec.StepKeepsConsistent | src/gristClient.ts:51-118 | every operation keeps the state consistent: no host call without a host; `ready` is the first host call; the host is set exactly when `ready` was called; a handler is registered exactly when its registration was made; a table id is stored only once a handler exists |
| GristSpec.RunKeepsConsistent | src/gristClient.ts:51-118 | the consistency above holds after any sequence of operations |
| GristSpec.StandaloneRunChangesNothing | src/gristClient.ts:55-103 | while no call of `initGrist` finds a host, no sequence of operations changes the state: no host call is made and the state stays as it was; from the load state, `currentTableId` stays null |
| GristSpec.RunOnlyExtends | src/gristClient.ts:51-118 | the host-call log only grows; once the API is set, or a handler registered, it stays so |
| GristClient.BuildFields | src/gristClient.ts:107-110 | the field set has exactly the payload's keys other than `__proto__` (which the source's assignment drops), each mapped to the payload's value |
| GristClient.Client.constructor | src/gristClient.ts:51-52 | the state at module load: no API, no handler, `currentTableId` null, no host calls |
| GristClient.Client.InitGrist | src/gristClient.ts:55-93 | `initGrist` moves the state as `InitStep` does and keeps it consistent |
| GristClient.Client.OnRecords | src/gristClient.ts:72-92 | the handler calls `mapColumnNames` with the records, the column slots and the mappings; it returns the listener's rows and changes only `currentTableId`, both as `ReactToRecords` and `RecordsStep` give them |
| GristClient.Client.CreateRowFromPayload | src/gristClient.ts:96-118 | `createRowFromPayload` moves the state and completes as `CreateStep` does and changes nothing but the call log |

## Left out

- The console output (`console.warn`, `console.error`) is not modelled. It has no effect on the state or the result.
- How `window.grist` is detected is not modelled. It becomes the parameter `hostDetected`; an undefined `window` and a missing `grist` both give false.
- What `mapColumnNames`, `getTable` and `docApi.create` do inside the host is not modelled. Their answers are parameters.
- JavaScript promises are not modelled. The settled outcome of `create` is the parameter `Settlement`. The settled outcome of `createRowFromPayload` is the result `Completion`.
- `Number(r.id)` is not modelled; it is the parameter `idOf`. So `NaN` and non-integer ids are outside the model.
- GristClient.Client.OnRecords: the listener is modelled by the rows the handler returns. In the source, when `mapColumnNames` gives null, the listener runs before `currentTableId` is set to null. A listener that creates a row right away would then still see the old table id. The model does not capture that re-entrant order.
- The model has one flag for "a handler is registered". If `initGrist` is called twice with a listener, the source registers two handlers, and the call log shows two registrations. Each handler makes the same state change, so the state is the same. The second listener's separate copy of the rows is not modelled.
- Key order of the field set (the order of `Object.entries`) is not modelled. A field set is a map.
- `src/main.ts` (the Vue application bootstrap) and `vite.config.ts` (build configuration) are not part of this model. They only wire and bundle the widget.
