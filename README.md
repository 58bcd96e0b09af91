# Lock-mode algebra for multi-granularity locking

This project models `LockType`, the enum at the heart of a database's
hierarchical (intention) locking. The enum has six lock modes: `S`, `X`, `IS`,
`IX`, `SIX` and `NL`. It defines the rules the lock manager and the
resource-hierarchy layer consult:

- `compatible(a, b)`: may two transactions hold `a` and `b` on one resource at once;
- `parentLock(a)`: which mode to request on the parent before `a` is granted;
- `canBeParentLock(parent, child)`: does the parent's mode permit `child` on a child;
- `substitutable(substitute, required)`: does a held mode already satisfy a need;
- `isIntent()` and `toString()`: classify a mode and print its name.

Module `LockTypes` (`LockType.dfy`) holds the datatype and one function per
operation. The functions reproduce the tables of `LockType.java` entry by entry,
including the entries that differ from the textbook scheme:

- an `S` parent rejects an `IS` child;
- an `X` parent permits an `X` child;
- a `SIX` parent permits only `X` and `NL`;
- `IX` and `S` substitute for `SIX`;
- `X` does not substitute for `IX`.

Lemmas beside the functions state the laws the tables obey. Module
`AccessSemantics` (`AccessSemantics.dfy`) gives a reference reading of each
mode as a set of access components: read or write the whole resource, or
intend to read or write descendants. It proves that the coded compatibility
table is exactly "no read/write clash" between those components. It also
proves that `parentLock` is the intention mode covering the child's access.

`substitutable` is neither transitive nor antisymmetric as coded. The model
states the counterexamples and derives no order from it. The doc comment of
`substitutable` (LockType.java lines 145-149) says the substitute lets the
transaction do everything the required mode lets it do. Read against the
access components, the coded table departs from that meaning at five kinds
of pair. `SubstitutableVersusGrants` names them exactly. Two of them,
`S` and `IX` standing in for `SIX` (lines 183-189), grant less than `SIX`:
`S` lacks its intent to write below, `IX` its read of the whole resource.

## Model

| member | source | states |
|---|---|---|
| LockTypes.CompatibleSymmetric | src/main/java/edu/berkeley/cs186/database/concurrency/LockType.java:20-66 | for all modes, compatible(a, b) equals compatible(b, a) |
| LockTypes.NoLockCompatibleWithAll | src/main/java/edu/berkeley/cs186/database/concurrency/LockType.java:25-27 | NL is compatible with every mode, on either side |
| LockTypes.ExclusiveCompatibleOnlyWithNoLock | src/main/java/edu/berkeley/cs186/database/concurrency/LockType.java:25-64 | X is compatible with a mode, on either side, if and only if that mode is NL |
| LockTypes.OnlyNoLockCompatibleWithAll | src/main/java/edu/berkeley/cs186/database/concurrency/LockType.java:20-66 | a mode is compatible with every mode if and only if it is NL |
| LockTypes.CompatibleScenarios | src/main/java/edu/berkeley/cs186/database/concurrency/LockType.java:28-63 | S/S, IS/SIX and IX/IX are compatible; S/X, IX/S and SIX/SIX are not |
| LockTypes.ParentLock | src/main/java/edu/berkeley/cs186/database/concurrency/LockType.java:72-143 | parent consistency: canBeParentLock(parentLock(a), a) holds for every mode; the parent lock is NL exactly for NL, and an intention mode otherwise |
| LockTypes.ParentLockIdempotent | src/main/java/edu/berkeley/cs186/database/concurrency/LockType.java:76-82 | parentLock(parentLock(a)) equals parentLock(a) |
| LockTypes.ParentLockCases | src/main/java/edu/berkeley/cs186/database/concurrency/LockType.java:76-82 | parentLock gives IS exactly for S and IS, IX exactly for X, IX and SIX, NL exactly for NL |
| LockTypes.ParentLocksNeverConflict | src/main/java/edu/berkeley/cs186/database/concurrency/LockType.java:20-85 | the parent locks of any two modes are compatible with each other |
| LockTypes.NoLockChildAlwaysAllowed | src/main/java/edu/berkeley/cs186/database/concurrency/LockType.java:96-141 | every parent mode permits an NL child |
| LockTypes.NoLockParentAllowsOnlyNoLock | src/main/java/edu/berkeley/cs186/database/concurrency/LockType.java:136-141 | an NL parent permits a child mode if and only if it is NL |
| LockTypes.OnlyIntentExclusiveAllowsEveryChild | src/main/java/edu/berkeley/cs186/database/concurrency/LockType.java:96-141 | a parent mode permits every child mode if and only if it is IX |
| LockTypes.IntentParentPermitsByParentLock | src/main/java/edu/berkeley/cs186/database/concurrency/LockType.java:110-128 | under an IS or IX parent, a child other than NL is permitted if and only if the parent substitutes for the child's parent lock |
| LockTypes.NonIntentRuleParentRows | src/main/java/edu/berkeley/cs186/database/concurrency/LockType.java:96-134 | an S parent permits exactly S and NL, so not IS; an X parent permits exactly X and NL, so X although X does not substitute for IX; a SIX parent permits exactly X and NL, so not S, although SIX substitutes for IS |
| LockTypes.LockedChildNeedsLockedParent | src/main/java/edu/berkeley/cs186/database/concurrency/LockType.java:91-143 | a child other than NL is permitted only under a parent other than NL |
| LockTypes.Substitutable | src/main/java/edu/berkeley/cs186/database/concurrency/LockType.java:151-198 | reflexive: every mode substitutes for itself; NL neither substitutes for nor is substituted by any other mode |
| LockTypes.SubstitutableAsymmetric | src/main/java/edu/berkeley/cs186/database/concurrency/LockType.java:145-169 | X substitutes for S, but S does not substitute for X |
| LockTypes.OnlyNoLockSubstitutesNoLock | src/main/java/edu/berkeley/cs186/database/concurrency/LockType.java:191-196 | a mode substitutes for NL if and only if it is NL |
| LockTypes.OnlyExclusiveSubstitutesExclusive | src/main/java/edu/berkeley/cs186/database/concurrency/LockType.java:164-169 | a mode substitutes for X if and only if it is X |
| LockTypes.IntentSharedSubstitutes | src/main/java/edu/berkeley/cs186/database/concurrency/LockType.java:170-176 | a mode substitutes for IS if and only if it is neither NL nor S |
| LockTypes.NeedsMetOnlyBySameMode | src/main/java/edu/berkeley/cs186/database/concurrency/LockType.java:151-198 | only the mode itself substitutes for a need if and only if the need is X, IX or NL |
| LockTypes.SubstitutableNotTransitiveNorAntisymmetric | src/main/java/edu/berkeley/cs186/database/concurrency/LockType.java:156-190 | IX substitutes for SIX and SIX for S, yet IX does not substitute for S; S and SIX substitute for each other |
| LockTypes.SubstitutableScenarios | src/main/java/edu/berkeley/cs186/database/concurrency/LockType.java:156-190 | SIX substitutes for S and IX for SIX; IS does not substitute for S, nor X for IX |
| LockTypes.IntentModes | src/main/java/edu/berkeley/cs186/database/concurrency/LockType.java:203-205 | isIntent holds exactly for IS, IX and SIX |
| LockTypes.NameInjective | src/main/java/edu/berkeley/cs186/database/concurrency/LockType.java:208-218 | distinct modes have distinct printed names |
| AccessSemantics.CompatibleIffNoConflict | src/main/java/edu/berkeley/cs186/database/concurrency/LockType.java:14-66 | two modes are compatible if and only if their access components do not clash: no whole-resource write beside any other lock, no whole-resource read beside an intended write |
| AccessSemantics.ParentLockIsIntentionForGrants | src/main/java/edu/berkeley/cs186/database/concurrency/LockType.java:68-85 | parentLock(a) is IX when a may write, IS when a only reads, NL when a grants nothing |
| AccessSemantics.SubstitutableVersusGrants | src/main/java/edu/berkeley/cs186/database/concurrency/LockType.java:145-198 | against the documented meaning "the substitute grants everything the required mode grants", the table accepts more exactly at (S, SIX), (IX, SIX) and (X, IS), and less exactly at (SIX, IX) and at (m, NL) for m other than NL |
| AccessSemantics.IsIntentIffAnnouncesDescendants | src/main/java/edu/berkeley/cs186/database/concurrency/LockType.java:200-205 | a mode is an intention mode if and only if it announces locks on descendants |

## Left out

- The null-argument checks that throw `NullPointerException` (LockType.java lines 21-23, 73-75, 92-94, 152-154). A datatype value is never null, so this error path cannot occur in the model.
- The defensive branches that cannot be reached with six modes: the `default` cases that throw `UnsupportedOperationException` (lines 83 and 216) and the final `return false` (lines 65, 142 and 197). Every `match` in the model covers all six modes, so no such branch is needed.
- LockTypes.Substitutable: the model does not promise the documented meaning of lines 145-149 (the substitute allows everything the required mode allows), because the coded table at lines 156-196 does not keep it; the model follows the code, and `SubstitutableVersusGrants` states exactly where the two differ.
- Java's implicit enum members (`valueOf`, `ordinal`, `values`) are not part of this model.
- The lock manager, lock contexts, transactions, blocking and queueing that use these rules are not part of this model.
