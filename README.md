# Boolean flag switch and grade lookup

This project models the two small pieces of logic in the repository.

- `FlagSwitch` models `BooleanFlagSwitch`. It is a Dafny class with the two fields of the Java class:
  - the plain flag `enabled`, changed by `Enable`, `Disable` and `Toggle`;
  - the atomic flag `atomicFlag`, changed through get-and-set (`AtomicEnable`, `AtomicDisable`) and `AtomicCompareAndSet`.
  Every method states the new value of each field and the value it returns.
  Every mutating method's new state is also given by `Next`, and the results of get-and-set and compare-and-set by `Reply`. `Run` and `Replies` extend these to a sequence of operations.
  The lemmas about sequences of calls are stated over that semantics.
  `Query`, the boolean-parameter switch between the cache and the database, is a pure function on strings.
- `Grades` models `chengji.c`. `GetNum` maps a score to the grades `A`..`E` with the thresholds 90, 80, 70 and 60. `Letter` gives the letter that `main` prints for a grade.

The atomic operations get their single-threaded meaning: each call takes effect at once, in program order.

## Model

| member | source | states |
|---|---|---|
| FlagSwitch.BooleanFlagSwitch.constructor | BooleanFlagSwitch.java:16-50 | a fresh switch has both `enabled` and the atomic flag false (the field initialisers at lines 16 and 50) |
| FlagSwitch.BooleanFlagSwitch.Enable | BooleanFlagSwitch.java:19-21 | `enabled` becomes true; the atomic flag is unchanged |
| FlagSwitch.BooleanFlagSwitch.Disable | BooleanFlagSwitch.java:24-26 | `enabled` becomes false; the atomic flag is unchanged |
| FlagSwitch.BooleanFlagSwitch.Toggle | BooleanFlagSwitch.java:29-31 | `enabled` becomes its negation; the atomic flag is unchanged |
| FlagSwitch.BooleanFlagSwitch.IsEnabled | BooleanFlagSwitch.java:34-36 | returns the current `enabled` and changes nothing |
| FlagSwitch.BooleanFlagSwitch.AtomicEnable | BooleanFlagSwitch.java:53-55 | returns the atomic flag held before the call and leaves it true; `enabled` is unchanged |
| FlagSwitch.BooleanFlagSwitch.AtomicDisable | BooleanFlagSwitch.java:58-60 | returns the atomic flag held before the call and leaves it false; `enabled` is unchanged |
| FlagSwitch.BooleanFlagSwitch.AtomicCompareAndSet | BooleanFlagSwitch.java:63-65 | returns true exactly when the flag equalled `expected`; on success the flag becomes `update`, on failure it is unchanged; `enabled` is unchanged |
| FlagSwitch.BooleanFlagSwitch.IsAtomicEnabled | BooleanFlagSwitch.java:68-70 | returns the current atomic flag and changes nothing |
| FlagSwitch.Next | BooleanFlagSwitch.java:19-65 | the state after one operation: enable sets `enabled` true, disable sets it false, toggle negates it, and all three leave the atomic flag as it was; the atomic operations leave `enabled` as it was; get-and-set leaves the flag true for `atomicEnable` and false for `atomicDisable`; a compare-and-set whose `expected` matches writes `update`, and one that does not match changes nothing |
| FlagSwitch.Reply | BooleanFlagSwitch.java:53-65 | only the atomic operations return a value; get-and-set returns the flag held before the call; a compare-and-set reports true exactly when the flag equalled `expected`; one reporting false changes nothing, and one reporting true leaves the flag at `update` |
| FlagSwitch.Query | BooleanFlagSwitch.java:100-107 | the result always ends with `key` |
| FlagSwitch.QueryRoundTrip | BooleanFlagSwitch.java:100-107 | the result has the prefix `cached_` when `useCache` holds and `db_` otherwise, followed by `key`: reading the prefix back gives both `useCache` and `key` |
| FlagSwitch.ToggleTwice | BooleanFlagSwitch.java:29-31 | two consecutive toggles restore the original state |
| FlagSwitch.ToggleParity | BooleanFlagSwitch.java:29-31 | after n toggles, `enabled` is flipped exactly when n is odd, and the atomic flag is unchanged |
| FlagSwitch.AtomicEnableTwice | BooleanFlagSwitch.java:53-55 | two get-and-set-to-true calls return the old flag and then true, and leave the flag true |
| FlagSwitch.PlainOpsKeepAtomicFlag | BooleanFlagSwitch.java:19-31 | any sequence of enable, disable and toggle leaves the atomic flag as it was |
| FlagSwitch.AtomicOpsKeepEnabled | BooleanFlagSwitch.java:53-65 | any sequence of atomic operations leaves `enabled` as it was |
| FlagSwitch.LastAtomicWriteWins | BooleanFlagSwitch.java:53-60 | after a non-empty sequence of get-and-set calls, the atomic flag is true exactly when the last call was `atomicEnable`, whatever it was before |
| FlagSwitch.CompareAndSetClaimsOnce | BooleanFlagSwitch.java:63-65 | of n calls to compare-and-set(false, true), exactly one succeeds when the flag starts false and none when it starts true; afterwards the flag is true if it was true or n > 0 |
| FlagSwitch.DemoScenario | BooleanFlagSwitch.java:112-136 | the demonstration run: the plain flag is off on a fresh switch, enable turns the flag on and toggle turns it off; the atomic flag starts false; `atomicEnable` returns false and leaves true; compare-and-set(true, false) succeeds and leaves false; the two queries give `cached_user:1` and `db_user:1` |
| Grades.Ordinal | chengji.c:3-10 | the enum values are A=0, B=1, C=2, D=3, E=4, in declaration order |
| Grades.GetNum | chengji.c:12-34 | A exactly for scores of 90 or more (no upper bound), B for [80,90), C for [70,80), D for [60,70), and E for every score below 60, negatives included |
| Grades.UpperBoundChecksRedundant | chengji.c:18-29 | removing the checks `num < 90`, `num < 80` and `num < 70` gives the same function |
| Grades.GetNumIsTableLookup | chengji.c:12-34 | the chain of checks equals a lookup of the first threshold reached in the table (A 90, B 80, C 70, D 60), with E when none is reached |
| Grades.GetNumMonotone | chengji.c:12-34 | a higher score never gets a worse grade |
| Grades.Letter | chengji.c:42-59 | the letter printed for a grade is that grade's own name, with E as the fallback case |
| Grades.LetterRoundTrip | chengji.c:42-59 | reading the printed letter back gives the grade again |
| Grades.Report | chengji.c:41-59 | the letter printed for a score is one of A..E; it is A exactly for scores of 90 or more, B for [80,90), C for [70,80), D for [60,70), and E for every score below 60 |

## Left out

- Concurrency of `AtomicBoolean`: linearizability, memory ordering and racing compare-and-set callers are not modelled. Each atomic call is one step of a sequential trace. `CompareAndSetClaimsOnce` states the one-winner property for calls in sequence only.
- `doWork` and `sendMessage` (BooleanFlagSwitch.java:39-45, 82-91) only print. They have no return value and change no state. The log lines inside `query` are left out for the same reason.
- The two `main` functions are console drivers. The Java demonstration is restated as `DemoScenario`, without its output. The C driver reads a score with `scanf` and prints a letter; it is restated as `Report`, with the score as a parameter.
- Query: a null `key` is not modelled. Java's string concatenation turns it into `cached_null` or `db_null`; a Dafny `string` cannot be null. No call in the source passes null.
- C `int` width: `getnum` does no arithmetic, so the score is an unbounded `int`.
