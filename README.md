# DateRangeRandomizer, modelled in Dafny

jPopulator's `DateRangeRandomizer` produces random `java.util.Date` values
between two bounds. Its constructor rejects a null minimum, then a null
maximum, then a minimum strictly after the maximum, each with an
`IllegalArgumentException`; otherwise it keeps both bounds in `final`
fields. `getRandomValue` reads both bounds as epoch milliseconds, asks
commons-math3's `RandomDataGenerator.nextLong` for a long between them and
wraps the result in a new `Date`.

Files:

- `wrappers.dfy`: `Option` (a nullable reference) and `Result` (a value or a thrown exception).
- `dates.dfy`: Java's `long` as a bounded integer type, `Date` as its millisecond count, `Date.after` as a strict comparison.
- `random_source.dfy`: the external random source as a nondeterministic oracle with only a range contract.
- `date_range_randomizer.dfy`: the randomizer class, the constructor's checks as a pure function, and the lemma about repeated calls.

Modelling decisions:

- A `Date` is the value `Date(time)`, with `time` a 64-bit count of milliseconds. A null argument is `None`.
- The three exception messages are `Message`, one per reason in `ArgumentError`.
- The `final` fields are `const` fields of the class. So they cannot be reassigned after construction. `GetRandomValue` has no `modifies` clause, so it changes nothing.
- The throwing Java constructor is `DateRangeRandomizer.Create`. It runs the three checks in the source's order and returns `Failure` with the reason, or `Success` with a fresh instance. The Dafny constructor holds only the two field assignments.
- `Validate` states the same checks as a function. Its contract compares it with `Violations`, which judges every condition on its own.
- The random draw is `RandomSource.NextLong`. For `lower < upper` it returns some value in `[lower, upper]`. For `lower > upper` it refuses. For `lower == upper` it may return `lower` or refuse; the model leaves that open.

## Model

| member | source | states |
|---|---|---|
| `Randomizers.Validate` | src/main/java/io/github/benas/jpopulator/randomizers/DateRangeRandomizer.java:55-66 | Fails exactly when at least one argument condition is violated, and reports the first one in check order: null min, then null max, then min after max. A null min always gives `MinDateNull`. A null max with a present min gives `MaxDateNull`. `MinDateAfterMaxDate` is reported exactly when both are present and min's time is strictly greater. Success happens exactly when both are present and min's time is at most max's, so equal bounds are accepted. On success the result holds the given bounds. |
| `Randomizers.DateRangeRandomizer.Create` | src/main/java/io/github/benas/jpopulator/randomizers/DateRangeRandomizer.java:55-67 | Fails exactly when `Validate` fails, with the same reason. On success returns a fresh instance that satisfies `Valid()` (`minDate.time <= maxDate.time`) and stores exactly the given bounds. |
| `Randomizers.DateRangeRandomizer.constructor` | src/main/java/io/github/benas/jpopulator/randomizers/DateRangeRandomizer.java:65-66 | Stores the two bounds as given and establishes `Valid()`. |
| `Randomizers.DateRangeRandomizer.GetRandomValue` | src/main/java/io/github/benas/jpopulator/randomizers/DateRangeRandomizer.java:70-75 | The call succeeds exactly when the source's draw succeeds. A returned date's millisecond count equals the draw. A failure of the source is passed on with its error unchanged. Any returned date is between `minDate.time` and `maxDate.time` inclusive. When `minDate.time < maxDate.time`, a date is always returned. The draw met the source's contract for the stored bounds. For a valid randomizer, a call can fail only when the two bounds are equal. |
| `Randomizers.RepeatedCallsStayInRange` | src/main/java/io/github/benas/jpopulator/randomizers/DateRangeRandomizer.java:43-48 | For any number of calls on one valid randomizer, each with any draw the source's contract allows for the (constant) stored bounds: one result per call; every returned date lies within the bounds; if `minDate < maxDate`, every call returns a date; a call fails only when the bounds are equal, which needs the invariant `Valid()`. |
| `Randomizers.MessageIdentifiesReason` | src/main/java/io/github/benas/jpopulator/randomizers/DateRangeRandomizer.java:57-63 | The three exception messages (`Message`) are pairwise different, so the message of the IllegalArgumentException that `Create` reports tells which check failed. |
| `RandomSource.NextLong` | src/main/java/io/github/benas/jpopulator/randomizers/DateRangeRandomizer.java:73 | The external `nextLong(lower, upper)` as an oracle. A returned value lies in `[lower, upper]`. A proper range (`lower < upper`) always yields a value. An empty range (`upper < lower`) is refused. |

## Left out

- The distribution of the draw: uniformity and other statistical properties belong to commons-math3's `RandomDataGenerator`. That library is not part of this model. Its `nextLong` is reduced to a range contract.
- RandomSource.NextLong: for `lower == upper` the contract allows either a value or a refusal. This is weaker than any claim about the library, because the library's code is not part of this model.
- Randomizers.DateRangeRandomizer.GetRandomValue: for equal bounds the contract does not promise that the single value is returned. It follows `RandomSource.NextLong`, above.
- Mutability and aliasing of `java.util.Date`: the constructor stores the caller's references. A caller could later mutate them, which is not modelled.
- The `Randomizer<Date>` interface: it is an API type with no logic of its own.
- Calendars, time zones and leap seconds: a date is only its millisecond count.
- The creation of a new `RandomDataGenerator` on every call is folded into the oracle call.
