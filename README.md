# earl expectation/validator protocol in Dafny

This project models three small pieces of the earl assertion library.

- **The negation-aware expectation** (`src/Expectation.ts`). An `Expectation` holds a read-only `actual` and `autofix`, plus a mutable `isNegated` flag. The `not` getter turns the flag on once and throws on a second use. `satisfy(validator)` runs a validator, then either returns or throws, depending on the verdict and the flag.
- **The reference-equality validator** (`toReferentiallyEqual`). Its verdict is identity (`Object.is`). It builds a reason and a negated reason, and adds a "did you mean `toEqual`" hint when identity fails but structural equality holds.
- **The snapshot validator `toMatchSnapshot`**, as far as its two tests fix it. It derives the snapshot name and file path from the test identity and evaluates the lazy update-mode capability. It then calls the injected `compareSnapshot` and maps the answer to the record it hands to `control.assert`.

Modules:

- `common.dfy`: module `Common`, holding `ValidationResult`, `Control`, `TestInfo`, `Option` and `Result`.
- `expectation.dfy`: module `Expectations`, holding class `Expectation`, the decision function `Decide` and `Outcome = Ok | Raise(message)`.
- `to_referentially_equal.dfy`: module `ReferentialEquality`.
- `to_match_snapshot.dfy`: module `Snapshots`.

Collaborators whose code is not part of this model are passed in as function values:

- `Object.is`, `smartEq` and `formatValue` are the fields of `ReferentialEquality.Runtime`.
- `compareSnapshot` and `shouldUpdateSnapshots` are the fields of `Snapshots.SnapshotOptions`.

A call to a collaborator is modelled as a value the validator returns. `ToReferentiallyEqual` returns the one record given to `control.assert`. `ToMatchSnapshot` returns the one argument given to `compareSnapshot` and the one given to `control.assert`. So "called exactly once with X" becomes a statement about those returned values.

`actual` and `autofix` are `const` fields, as `private readonly` makes them in the source, so nothing can change them. `Satisfy` has no `modifies` clause, so Dafny checks that it leaves `isNegated` and everything else unchanged.

Where the library's design notes and the code disagree, the model follows the code:

- The design notes describe an expectation as single-use, with a final "Resolved" state. In `src/Expectation.ts`, `satisfy` changes no state, so the model lets an expectation be used again.
- The design notes suggest representing negation as a tagged value. The source uses a mutable flag and a throwing getter, and the model does the same.

## Model

| member | source | states |
|---|---|---|
| Expectations.Expectation.constructor | src/Expectation.ts:14 | a new expectation holds the given `autofix` and `actual`; it is negated only when the third argument says so, and the default is false |
| Expectations.Expectation.Not | src/Expectation.ts:16-24 | on a non-negated expectation, sets the flag and returns the same object; on a negated one, fails with "Tried negating already negated expectation"; either way the flag ends up true, and only the flag may change |
| Expectations.NegateTwice | src/Expectation.ts:14-24 | a fresh expectation has its flag off; the first `not` returns the same object, the second throws the double-negation message, and `actual`/`autofix` are as constructed |
| Expectations.Decide | src/Expectation.ts:36-44 | raises iff `success == isNegated`; not negated: returns iff success, else raises `reason`; negated: returns iff not success, else raises `negatedReason` |
| Expectations.NegationFlipsOutcome | src/Expectation.ts:36-44 | for every verdict, the negated decision raises exactly when the plain one does not, each with its own message |
| Expectations.Expectation.Satisfy | src/Expectation.ts:30-48 | the outcome is decided from one application of the validator to this expectation's view and the caller's arguments: it raises iff that verdict's `success` equals the flag, with `negatedReason` when negated and `reason` otherwise; the expectation does not change |
| ReferentialEquality.ToReferentiallyEqual | packages/earljs/src/validators/toReferentiallyEqual.ts:5-21 | success iff `Object.is(actual, expected)`; reason is `fmt(actual) is not fmt(expected)` plus the hint iff identity fails and `smartEq` succeeds, with no hint when identity holds; negated reason is `fmt(actual) is fmt(expected)`; actual and expected are passed through unchanged |
| ReferentialEquality.VerdictIgnoresSmartEq | packages/earljs/src/validators/toReferentiallyEqual.ts:6-20 | `smartEq` affects only the hint: runtimes that agree on `Object.is` and formatting give the same verdict, negated reason and payloads |
| ReferentialEquality.ReferenceEqualityOutcome | packages/earljs/src/validators/toReferentiallyEqual.ts:5-21 | this validator's record, put through the expectation's decision, raises iff identity equals the negation flag; the message is the hinted "is not" reason when not negated and the plain "is" message when negated |
| Snapshots.JoinAppend | packages/earljs/test/validators/snapshots/toMatchSnapshot.test.ts:15-34 | joining one more part adds exactly one separator and that part |
| Snapshots.SnapshotNameExtendsSuite | packages/earljs/test/validators/snapshots/toMatchSnapshot.test.ts:15-34 | the snapshot name is the test name alone at top level; otherwise it is the suite path's name, one space, then the test name |
| Snapshots.DummySnapshotName | packages/earljs/test/validators/snapshots/toMatchSnapshot.test.ts:15-34 | suite `['Dummy suit']` and test `'works'` give the name `'Dummy suit works'` |
| Snapshots.SplitDirectory | packages/earljs/test/validators/snapshots/toMatchSnapshot.test.ts:17 | a test file path splits into a directory part (empty, or ending in `/`) and a file name with no `/`; the two concatenate back to the path |
| Snapshots.BaseName | packages/earljs/test/validators/snapshots/toMatchSnapshot.test.ts:17 | the base name is a prefix of the file name; either it is the whole name, or it is followed by a dot that starts the final extension |
| Snapshots.SnapshotFilePath | packages/earljs/test/validators/snapshots/toMatchSnapshot.test.ts:36 | the snapshot file lies in `__snapshots__/` under the test file's directory and ends in `.snap` |
| Snapshots.SnapshotFilePathOfParts | packages/earljs/test/validators/snapshots/toMatchSnapshot.test.ts:36 | the snapshot path is the directory part, `__snapshots__/`, the base name and `.snap` |
| Snapshots.DummySnapshotFilePath | packages/earljs/test/validators/snapshots/toMatchSnapshot.test.ts:17-36 | `/tests/dummy.test.ts` gives `/tests/__snapshots__/dummy.test.snap` |
| Snapshots.SnapshotValidation | packages/earljs/test/validators/snapshots/toMatchSnapshot.test.ts:58-77 | the asserted success is `compareSnapshot`'s; the negated reason is always `'-'`; success gives exactly `{true, '-', '-'}` with no payloads; failure gives reason "Snapshot doesn't match" with `compareSnapshot`'s own actual and expected |
| Snapshots.ToMatchSnapshot | packages/earljs/test/validators/snapshots/toMatchSnapshot.test.ts:30-39 | `compareSnapshot` receives the control's `actual` unchanged, the derived name and path, and the evaluated result of `shouldUpdateSnapshots`; `control.assert` receives the mapping of `compareSnapshot`'s answer |
| Snapshots.CreatesNewSnapshots | packages/earljs/test/validators/snapshots/toMatchSnapshot.test.ts:10-40 | the first test: `compareSnapshot` is called with `{'test123', 'Dummy suit works', false, '/tests/__snapshots__/dummy.test.snap'}`, and assert gets `{success: true, reason: '-', negatedReason: '-'}` |
| Snapshots.MatchesExistingSnapshots | packages/earljs/test/validators/snapshots/toMatchSnapshot.test.ts:42-78 | the second test: the same `compareSnapshot` arguments, and assert gets `{success: false, reason: "Snapshot doesn't match", negatedReason: '-', actual: 'test123', expected: 'abc'}` |

## Left out

- `Object.is`, `smartEq` and `formatValue` are injected functions over an abstract value type. Their own behaviour is not modelled: NaN and signed zero, cycle handling, diff paths and the printing format.
- `compareSnapshot` is injected. The snapshot store is not modelled: first-write creation, comparison against stored content, update mode, file I/O and per-file locking.
- Snapshots.SnapshotFilePath: the source that derives the path is not part of this model, and the tests fix it for one input only. The model's rule follows the documented `<dir>/__snapshots__/<basename>.snap` layout, with the base name being the file name without its final extension. Paths with a trailing `/` or names such as `..` may differ from Node's path functions.
- Snapshots.SnapshotName: the rule (join with single spaces) is fixed by the tests for a single suite segment only.
- Snapshots.ToMatchSnapshot: its behaviour when `control.isNegated` is true, or when the control has no test-runner context, is not fixed by the tests and not modelled. `Control` always carries a context here.
- Expectations.Expectation.Satisfy: the source's validator receives the object itself as `this` and could change `isNegated` before the flag is read. The model gives validators a read-only view, which matches every validator shown.
- The test-runner hooks `beforeTestCase` and `afterTestCase`, and the spies that record calls, are not modelled.
- `src/expect.ts` (the `expect` factory, `expect.anything`) is not part of this model. The factory only calls the constructor with the default flag, and `NegateTwice` covers that.
- `autofix` is only carried through. Its type is a type parameter.
- The other validators that `Expectation` installs (`toEqual`, `toThrow`) are not part of this model. `Satisfy` is stated for any validator.
