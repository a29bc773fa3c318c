# In-memory queue broker, modelled in Dafny

The broker is a small HTTP server that keeps named FIFO queues of strings in
memory. It has three request handlers:

- `PUT /<name>?v=<value>` appends a value to the queue `<name>`. The queue is
  created on first use.
- `GET /<name>[?timeout=<seconds>]` takes the oldest value, or waits up to
  `timeout` seconds for one.
- Every other method is answered 501.

The queues live in a lock-protected registry (`queuesSync`). Each queue's list
has its own lock and condition variable.

This project models that core as follows.

- **`registry.dfy`, module `QueueRegistry`.** The registry is the class
  `QueuesSync`, whose field holds the contents as `map<string, seq<string>>`,
  oldest payload first.
  - `Get` and `Put` are the registry's `get` and `put`.
  - `PushBack` and `PopFront` are the list operations the handlers perform under
    a queue's lock.
- **`broker.dfy`, module `Broker`.** Each handler is a method over a
  `QueuesSync` and is proved equal to a function on the registry contents:
  - `PutInQueue` is proved equal to `Produce`.
  - `GetFromQueue` is proved equal to `Consume`.
  - `HandleRequest` is proved equal to `Handle`.

  The properties the handlers promise are stated and proved on those functions.
  A consumer that reaches an empty queue with a non-zero timeout ends in
  `WouldBlock(timeout)`, the point where the original suspends. The registry is
  unchanged at that point.
- **`gostrings.dfy`, module `GoStrings`.** These are the two library routines
  the consumer applies to the `timeout` value: `strings.TrimSpace` with Go's
  white-space set, and `strconv.Atoi` with the range of a 64-bit `int`. The
  decimal formatter `FormatInt` is included as Atoi's inverse.
- **`traces.dfy`, module `Traces`.** Requests handled one after another, each as
  one atomic step. The module proves the following over these traces:
  - Conservation: nothing is lost, duplicated or reordered.
  - FIFO delivery, on a fresh non-empty name, for any list of non-empty payloads.
  - The concrete instance on a fresh name: PUT A, B, C (non-empty), then four GETs.
- **`wrappers.dfy`, module `Wrappers`.** The `Option` type, which models Go's
  `(value, err)` pairs.

How the `timeout` value is read, stated once here:

- A blank value means 0.
- Anything else must be what `strconv.Atoi` accepts: an optional sign, then
  ASCII digits, with the value inside the 64-bit range.
- The value is meant as a number of seconds to wait, yet a negative number
  is accepted as well, because the code does not reject it; it leads into the
  blocking path like any other non-zero value. The model follows the code.
- A signed zero (`+0`, `-0`) is a zero timeout and never waits.

## Model

| member | source | states |
|---|---|---|
| QueueRegistry.QueuesSync.constructor | main.go:15-17 | the global registry starts with no queues |
| QueueRegistry.QueuesSync.Get | main.go:29-35 | a lookup reports whether the key is present and returns its queue; it creates nothing |
| QueueRegistry.QueuesSync.Put | main.go:37-42 | `put` binds the key to the given queue and leaves every other key as it was |
| QueueRegistry.QueuesSync.PushBack | main.go:84-87 | the value becomes the newest element of that queue; all other entries are unchanged |
| QueueRegistry.QueuesSync.PopFront | main.go:116-121 | the returned value is the old head, and the queue keeps exactly the rest |
| QueueRegistry.PutThenGet | main.go:29-42 | after `put(k, q)`, `get(k)` answers `(q, true)`, and a lookup of any other key answers as before |
| GoStrings.TrimSpace | main.go:100 | the result is the input minus an all-space prefix and an all-space suffix; it does not start or end with a space; it is empty exactly when the input is all space |
| GoStrings.TrimSpacePadded | main.go:100 | trimming spaces around a word with no space at either end gives back exactly that word |
| GoStrings.Atoi | main.go:102-106 | a success implies a non-empty input made of an optional sign and digits; the value lies in the 64-bit range, and a negative value comes from a leading `-`; empty input fails |
| GoStrings.AtoiSigned | main.go:102-106 | non-empty digits are accepted exactly when their decimal value fits the 64-bit range, and are worth that value; a leading `+` changes nothing; a leading `-` negates the value and accepts down to the 64-bit minimum |
| GoStrings.AtoiMinusLeadingZero | main.go:102 | leading zeros after a `-` do not change what Atoi reads |
| GoStrings.AtoiSignedZero | main.go:102 | `+0` and `-0` both read as 0 |
| GoStrings.AtoiFormatInt | main.go:102 | Atoi reads back every 64-bit integer the decimal formatter writes |
| GoStrings.AtoiLeadingZero | main.go:102 | leading zeros before unsigned digits do not change what Atoi reads |
| GoStrings.AtoiRejectsOutOfRange | main.go:102-106 | the decimal text of any integer outside the 64-bit range, as the formatter writes it, is rejected |
| Broker.ParseTimeout | main.go:99-108 | blank (all-space) means a timeout of 0; any other value parses exactly as Atoi reads it once trimmed of white space; any value that parses is in the 64-bit range |
| Broker.ParseTimeoutShape | main.go:99-108 | a value that is not blank parses only when it is white space around a stretch Atoi accepts, and it is worth what Atoi reads there |
| Broker.ParseTimeoutRejectsBareSign | main.go:101-106 | a lone `+` or `-` is malformed |
| Broker.ParseTimeoutPadded | main.go:99-108 | any 64-bit integer, negative ones included, surrounded by white space, parses to itself |
| Broker.ParseTimeoutRejectsForeign | main.go:100-106 | a character that is not a space, digit or sign anywhere in the value makes the request malformed |
| Broker.Status.Code | main.go:61-130 | OK, BadRequest, NotFound and NotImplemented are written as exactly 200, 400, 404 and 501 (each code names one status): OK is the only 2xx status, BadRequest and NotFound are the 4xx ones, NotImplemented is the 5xx one |
| Broker.CodeInjective | main.go:61-130 | distinct statuses are written as distinct codes |
| Broker.Produce | main.go:66-90 | OK exactly when the name and the value are both non-empty; then the queue exists afterwards and has `v` appended at its tail; otherwise BadRequest and nothing changes; other queues are untouched and the body is empty |
| Broker.Consume | main.go:92-132 | BadRequest exactly for an empty name or a malformed timeout, with the registry untouched; NotFound exactly for an unknown name, or for an empty queue with timeout 0; a delivery exactly when the queue is non-empty, and then it hands out the head and removes it; `WouldBlock` exactly for an empty queue with a non-zero timeout, carrying that timeout; no queue is ever created; only a delivery changes anything |
| Broker.ConsumeSignedZero | main.go:99-132 | a GET with timeout `+0` or `-0` on an existing empty queue answers NotFound at once and changes nothing |
| Broker.Handle | main.go:52-64 | a method other than GET or PUT is answered NotImplemented and changes nothing; only a GET can wait, and waiting changes nothing; no request removes a queue, and a request creates at most the queue it names |
| Broker.PutInQueue | main.go:66-90 | the imperative producer (look up, create if absent, push back) has exactly the answer and new registry of `Produce` |
| Broker.GetFromQueue | main.go:92-132 | the imperative consumer (trim, Atoi, look up, pop the head) has exactly the outcome and new registry of `Consume` |
| Broker.HandleRequest | main.go:52-64 | the dispatcher has exactly the outcome and new registry of `Handle` |
| Traces.Conservation | main.go:84-87 | for every queue name and every request sequence, the payloads handed out followed by what is still queued equal what was queued at the start followed by every accepted PUT value, in order |
| Traces.DeliveredIsPrefix | main.go:118-120 | for every name, the payloads handed out are a prefix of the initial queue followed by the accepted values, so none is handed out twice |
| Traces.RunPuts | main.go:75-89 | PUTs of non-empty values on one non-empty name are all answered OK and append their values, in order, to a queue created if absent |
| Traces.RunGets | main.go:110-132 | GETs without a timeout on an existing queue with a non-empty name hand out its payloads oldest first, then answer NotFound and leave it empty |
| Traces.UnknownNameMisses | main.go:110-113 | a GET without a timeout on a non-empty name never created answers NotFound and changes nothing |
| Traces.FifoOrder | main.go:66-132 | on a fresh non-empty name, PUTs of any list of non-empty values and then one more GET than values: every PUT is acknowledged, the values come back in order, and the last GET answers NotFound |
| Traces.FifoThree | main.go:66-132 | on a fresh non-empty name, PUT A, B, C (all non-empty) then four GETs without a timeout answers OK three times, hands out A, B, C and then answers NotFound |

## Left out

- `main`, the command-line flag and the HTTP listener (main.go:44-50) are I/O.
- Reading the queue name from the URL path and the `v` and `timeout` query values is not modelled. A request comes in already split into method, name, value and raw timeout.
- The blocking path of `getFromQueue` is not modelled (main.go:134-165). This covers the context deadline, the waiting goroutine, the condition variable's `Wait`/`Signal` and the re-signal by a timed-out waiter. The model stops at `WouldBlock(timeout)`, so what a waiting consumer eventually receives is not modelled.
- Scaling the timeout by `time.Second` (main.go:134) belongs to the blocking path and is not modelled either.
- Locks and concurrency are not modelled: the registry's read-write lock and each queue's mutex. Every handler runs as one atomic step.
- The check-then-create race in `putInQueue` is not modelled (main.go:75-82). There, two producers that both miss the lookup each install a fresh queue, and the second `put` replaces the first queue together with its value.
- The registry in the original maps names to pointers to list objects, and the handlers mutate the list in place. The model updates the map entry instead. The two agree sequentially because an entry is never replaced once created, apart from the race above.
- Strings are sequences of Unicode code points. Byte-level handling of invalid UTF-8 by `strings.TrimSpace` is not modelled.
- Broker.Handle: its contract states the NotImplemented branch, that only a GET waits, and which queues can exist afterwards. The GET and PUT branches are what its body does, and their meaning is stated on `Consume` and `Produce`.
- Go's `int` is taken to be 64 bits wide, as on 64-bit targets. On a 32-bit target `strconv.Atoi` rejects values outside the 32-bit range (such as `3000000000`, answered BadRequest there), where the model accepts them and the consumer waits.
