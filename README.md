# Bounded recency buffer (`Memory`)

This project models the `Memory` class of memory.py. The service uses it to keep
its most recent successful responses from the external brewery directory. The
class holds a list `stack`, newest entry first, with at most `maxLength` entries.

- `add(item)` first evicts the oldest entry if the buffer is full. It then wraps
  any item that is not exactly a Python `list` as a one-element list. Last, it
  inserts the result at the front, but only if that result is non-empty.
- `getRecent()` returns the newest entry that holds exactly one item, or `None`.
- `getMaxLength()` and `stringRep()` only read the buffer.

The project has three files:

- `wrappers.dfy` holds `Option`, `Result` and `Outcome`.
- `memory_spec.dfy` (module `MemorySpec`) gives the behaviour as functions on
  values. `Added` is the buffer after one `add`, `AddAll` the buffer after a run
  of `add` calls, and `MostRecentSingular` the answer of `getRecent`. The
  lemmas beside them state the properties the buffer keeps.
- `memory.dfy` (module `RecencyMemory`) holds `Memory` as a class with a
  `stack: seq<seq<V>>` field and a `maxLength` field. `Add` changes `stack` in
  place and is proved against `Added`. `GetRecent` is a scanning loop proved
  against `MostRecentSingular`. A few client methods replay concrete call
  sequences.

An argument to `add` is a `Payload<V>`. `PList(items)` stands for an exact
Python `list`. `PAtom(value)` stands for anything else, including a tuple or an
empty tuple, which `add` wraps and stores.

Two behaviours of the code are easy to miss, and the model keeps both:

- `add([])` is not a no-op. The code evicts before it tests for emptiness
  (memory.py:31-35), so `add([])` on a full buffer still drops the oldest
  entry and stores nothing. `AddedEmptyList` and `EmptyListOnFullScenario`
  state this.
- The code never checks that the limit is positive. With a limit of 0 or less,
  the first `add` runs `pop(-1)` on the empty list, which raises Python's
  IndexError before anything changes (memory.py:31-32). `Added` returns
  `Failure(PopFromEmptyList)` in that case, and `Memory.Add` returns
  `Fail(PopFromEmptyList)` and leaves `stack` unchanged. The model does not
  require a positive limit.

`maxLength` is a `const` field. No method can reassign it, so "the limit never
changes" holds by construction.

## Model

| member | source | states |
|---|---|---|
| `RecencyMemory.Memory.constructor` | memory.py:10-16 | the new buffer is empty, its limit is the given limit, and it satisfies the buffer invariant; no positivity check on the limit |
| `RecencyMemory.Memory.Add` | memory.py:26-36 | keeps the invariant; it raises exactly when `Added` does, and then changes nothing; otherwise the new `stack` is `Added(old stack, maxLength, item)` |
| `RecencyMemory.Memory.GetRecent` | memory.py:45-57 | returns None exactly when no entry has length 1; otherwise it returns the entry at the smallest index whose length is 1; it equals `MostRecentSingular(stack)` |
| `RecencyMemory.Memory.GetMaxLength` | memory.py:38-43 | returns the limit given at construction, without changing anything |
| `RecencyMemory.Memory.StringRep` | memory.py:19-24 | returns the stored entries in order, newest first, without changing anything |
| `RecencyMemory.ReadsAreRepeatable` | memory.py:38-57 | two rounds of reads with no `add` between them give the same `getRecent` answer, and the state and limit stay the same |
| `RecencyMemory.CapacityTwoScenario` | memory.py:26-57 | with limit 2, adding "a", "b", "c" leaves `[["c"], ["b"]]`, and `getRecent` returns `["c"]` |
| `RecencyMemory.SkipsListScenario` | memory.py:26-57 | after a two-item list, `getRecent` returns None; after a single value is added too, it returns that value wrapped |
| `RecencyMemory.EmptyListOnFullScenario` | memory.py:31-36 | `add([])` on a full buffer of limit 2 evicts the oldest entry and stores nothing |
| `RecencyMemory.ZeroLimitScenario` | memory.py:10-16 | with limit 0, the first `add` raises IndexError and the buffer stays empty |
| `MemorySpec.Normalize` | memory.py:33-34 | a non-list item becomes the one-element list holding it; a list is stored as it is; the entry is empty exactly when the item is the empty list |
| `MemorySpec.Evict` | memory.py:31-32 | raises exactly when the buffer is empty and the limit is not positive; otherwise the result is a prefix of the buffer, one entry shorter when the buffer was full, the same length otherwise |
| `MemorySpec.Push` | memory.py:35-36 | a non-empty entry goes in front of the buffer, which keeps its order behind it; an empty entry leaves the buffer unchanged |
| `MemorySpec.Added` | memory.py:26-36 | `add` raises exactly when the buffer is empty and the limit is not positive, and only through the eviction step |
| `MemorySpec.FirstSingular` | memory.py:54-57 | gives the smallest index whose entry has length 1; no entry before it has length 1; it is None exactly when no entry has length 1 |
| `MemorySpec.MostRecentSingular` | memory.py:54-57 | None exactly when no entry has length 1; otherwise the stored entry of length 1 at the smallest such index, with no entry of length 1 before it |
| `MemorySpec.AddedKeepsWellFormed` | memory.py:31-36 | `add` keeps every entry non-empty and keeps the length bound; with a limit of at least 1 it never raises and the result has at most `maxLength` entries |
| `MemorySpec.AddedShape` | memory.py:31-36 | on a full buffer exactly the oldest entry is removed; the remaining entries keep their order behind the new front entry, when there is one; on a buffer that is not full nothing is removed |
| `MemorySpec.AddedFront` | memory.py:33-36 | after `add` with a non-empty normalised item, that item is at index 0 and the rest is a prefix of the old buffer |
| `MemorySpec.AddedEmptyList` | memory.py:31-35 | `add([])` stores nothing; on a full buffer it still drops the oldest entry; on a buffer that is not full it changes nothing |
| `MemorySpec.FirstSingularPrefix` | memory.py:54-57 | cutting off the oldest entries keeps the first singular entry when it lies inside the kept part, and otherwise leaves none |
| `MemorySpec.AddedSingularIsRecent` | memory.py:26-57 | after `add` of a single value or a one-element list, `getRecent` returns exactly that entry |
| `MemorySpec.MostRecentSingularBehindNonSingular` | memory.py:54-57 | an entry that does not hold exactly one item, put in front, does not change what `getRecent` returns |
| `MemorySpec.AddedNonSingularKeepsRecent` | memory.py:26-57 | after `add` of a list with other than one item, `getRecent` gives its earlier answer; it gives None when that answer was the oldest entry and was evicted |
| `MemorySpec.AddAllKeepsWellFormed` | memory.py:31-36 | with a limit of at least 1, no sequence of `add` calls raises; after every call the entries stay non-empty and there are at most `maxLength` of them |
| `MemorySpec.AddAllNonPositiveLimitFails` | memory.py:31-32 | with a limit of 0 or less, any non-empty sequence of `add` calls on a fresh buffer raises IndexError |
| `MemorySpec.AddAllNewestFirst` | memory.py:31-36 | after a sequence of `add` calls with non-empty items, the buffer holds the new entries newest first, then the old entries, cut to the limit |

## Left out

- db_app.py and meal_max/meal_max/utils/backend/login.py are left out. They hold the Flask routes, the SQLAlchemy schema and sessions, and password hashing over `hashlib` and `os.urandom`. All of it is I/O, persistence and foreign calls with no logic of its own.
- `RecencyMemory.Memory.StringRep` returns the ordered entries, not the text of Python's `str()` of the list. That text is library formatting.
- Aliasing is not modelled. Python stores the caller's list object itself, and `getRecent` returns that same object. The model stores and returns values, so it does not show a later change to that list by the caller.
- Concurrency is left out. The class has no synchronisation, and callers that share it must serialise the calls.
- The direct writes to the public `stack` attribute that Python allows are not modelled. The invariant `Valid` covers only a buffer changed through `add`.
