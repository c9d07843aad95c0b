# BullMQ queue base: key namespace and teardown guard

This project models `QueueBase`, the class every BullMQ queue, worker and
scheduler extends. It does two things:

- **Key namespace.** A queue named `name` under the prefix `prefix` stores
  everything in keys of the form `prefix:name:type`. Options are resolved by
  laying the caller's options over `{ prefix: "bull" }`. At construction the
  queue computes its key table for 21 resource labels, the empty label
  included. `fromKey` recovers the type of a key by cutting off as many
  characters as `prefix:name:` has. `byNameKey` extends the `by-name` key
  with `:jobName`.
- **Teardown guard.** `close` asks the store connection to close only on
  its first call and remembers the pending completion in `closing`. Every
  call returns that same completion. `disconnect` goes to the connection on
  every call.

Files:
- `wrappers.dfy`: `Option`, for properties that may be absent.
- `options.dfy`: the options record, object spread and prefix defaulting.
- `key_space.dfy`: `ToKey`, `FromKey`, the label list, the key-table loop
  and the lemmas about them.
- `queue_base.dfy`: the `QueueBase` class and two client scenarios.

The store connection is foreign code. Its `close` and `disconnect` are
modelled by their results: `Close` and `Disconnect` take as a parameter the
handle the connection would return. Ghost counters record how often each
one was invoked.

The round trip `FromKey(ToKey(t)) == t` holds for every `t`, `prefix` and
`name`, colons included. `fromKey` cuts by length and never looks for a
delimiter. Colons do cause a different problem: two distinct queues can own
the same keys, for example prefix `a:b` with name `c` and prefix `a` with
name `b:c` (`KeySpace.NamespacesCanCollide`).

## Model

| member | source | states |
|---|---|---|
| `Options.Resolve` | src/classes/queue-base.ts:17-20 | the resolved options always have a prefix: `"bull"` when the caller gave none, the caller's value otherwise; the connection settings pass through unchanged |
| `Options.ResolveIdempotent` | src/classes/queue-base.ts:17-20 | resolving already resolved options changes nothing |
| `KeySpace.ToKey` | src/classes/queue-base.ts:54-56 | the key starts with the prefix, then a colon, the name and a colon, and ends with the type; its length is the three parts' lengths plus two |
| `KeySpace.Head` | src/classes/queue-base.ts:67 | the key of the empty type is exactly `prefix:name:`, with nothing after the second colon, and is two characters longer than prefix and name together |
| `KeySpace.ToKeySplit` | src/classes/queue-base.ts:54-56 | every key is the head `prefix:name:` followed by its type, so its length is the head's length plus the type's |
| `KeySpace.FromKey` | src/classes/queue-base.ts:66-69 | the result is the suffix of the key that remains after the head's length is cut off; it is empty when the key is no longer than the head |
| `KeySpace.FromKeyToKey` | src/classes/queue-base.ts:54-69 | round trip: reading back any key built for a type gives that type, for any prefix and name, colons included |
| `KeySpace.ToKeyInjective` | src/classes/queue-base.ts:54-56 | two types of one queue never share a key |
| `KeySpace.FromKeyCharacterises` | src/classes/queue-base.ts:54-69 | a key is the queue's key for type `t` if and only if it starts with the queue's head and `FromKey` reads `t` from it |
| `KeySpace.DocumentedExample` | src/classes/queue-base.ts:62-65 | `bull:myQueueName:job1` reads back as `job1` |
| `KeySpace.NamespacesCanCollide` | src/classes/queue-base.ts:54-56 | prefix `a:b` with name `c` and prefix `a` with name `b:c` produce the same key for every type, and the first reads back the second's type |
| `KeySpace.ByNameKeyShape` | src/classes/queue-base.ts:58-60 | the `by-name` key followed by `:jobName` is the key of the compound type `by-name:jobName`, and `FromKey` reads that compound type back |
| `KeySpace.LabelCount` | src/classes/queue-base.ts:26-47 | the label list holds 21 different labels, among them the empty label and `by-name` |
| `KeySpace.BuildKeys` | src/classes/queue-base.ts:25-50 | the table built by the loop has exactly the listed labels as keys, and maps each label to its `ToKey` key |
| `QueueBases.QueueBase.constructor` | src/classes/queue-base.ts:11-52 | the queue keeps its name and the resolved options, owns a connection made from the caller's connection settings, has a 21-entry key table mapping each label to its key, and has nothing memoised and no teardown calls yet |
| `QueueBases.QueueBase.ByNameKey` | src/classes/queue-base.ts:58-60 | the result is the key of type `by-name:jobName`, and `FromKey` reads that type back from it |
| `QueueBases.QueueBase.Close` | src/classes/queue-base.ts:88-93 | the first call invokes the connection's close once and memoises its handle; later calls return the memoised handle without invoking it; the connection's close runs at most once; the key table and the disconnect count do not change |
| `QueueBases.QueueBase.Disconnect` | src/classes/queue-base.ts:95-97 | every call invokes the connection's disconnect and returns its result; `closing`, the close count and the key table do not change |
| `QueueBases.DefaultKeysScenario` | src/classes/queue-base.ts:17-49 | a queue named `orders` without options has keys `bull:orders:active` and `bull:orders:by-name` |
| `QueueBases.TeardownScenario` | src/classes/queue-base.ts:88-97 | three closes return the first close's handle, and a later disconnect still returns its own result |

## Left out

- The store connection (`RedisConnection`) is not part of this model. It is reduced to the settings it is created from, and its `close`/`disconnect` to the handles they return, passed in as parameters.
- Relaying the connection's `error` events through `EventEmitter` is left out: it is event plumbing with no logic of its own.
- The `client` getter and `waitUntilReady` are left out: they only hand on the connection's client, the second asynchronously.
- `base64Name` and `clientName` are left out: they delegate UTF-8 and base64 encoding to Node's `Buffer`.
- Promises, their settlement and concurrent callers are not modelled. Calls are sequential. The check-then-set in `close` has no suspension point, so sequential calls cover it.
- An explicit `prefix: undefined` in the caller's options overrides the default in JavaScript. Here an absent prefix is `None`, and it always yields `"bull"`.
- `opts` is public and mutable in the source. The model fixes it at construction, so a later change of `opts.prefix` is not modelled.
- String lengths count characters. JavaScript counts UTF-16 code units. The round trip holds either way, because `ToKey` and `FromKey` measure with the same unit.
