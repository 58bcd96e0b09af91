/**
 * The lock-mode algebra of a multi-granularity (hierarchical intention)
 * locking protocol: six lock modes and the four relations over them that
 * the lock manager and the resource-hierarchy layer consult.
 *
 * Every operation is a closed case analysis over the six modes. Each one
 * matches on the argument that LockType.java tests in its chain of `if`s
 * (the required mode, for Substitutable), after the NL test that opens
 * Compatible; each arm holds a `match` for the Java `switch`. A datatype
 * value is never null, so the null-argument checks of LockType.java have
 * no counterpart here.
 */
module LockTypes {

  /** The six modes, in declaration order. */
  datatype LockType =
    | S    // shared
    | X    // exclusive
    | IS   // intention shared
    | IX   // intention exclusive
    | SIX  // shared intention exclusive
    | NL   // no lock held

  /**
   * Can one transaction hold `a` on a resource while another transaction
   * holds `b` on the same resource?
   */
  function Compatible(a: LockType, b: LockType): bool {
    if a == NL || b == NL then true
    else match a
    case S =>
      (match b
        case S => true
        case IS => true
        case _ => false)
    case X => false
    case IS =>
      (match b
        case S => true
        case IS => true
        case IX => true
        case SIX => true
        case _ => false)
    case IX =>
      (match b
        case S => false
        case X => false
        case IS => true
        case IX => true
        case SIX => false
        case _ => false)  // NL: cannot be reached, handled above
    case SIX =>
      (match b
        case S => false
        case X => false
        case IS => true
        case IX => false
        case SIX => false
        case _ => false)  // NL: cannot be reached, handled above
    case NL => true
  }

  /**
   * The mode to request on the parent resource so that `a` can be granted
   * on the child. The parent it names always permits `a` as a child, and it
   * is an intention mode unless nothing is requested.
   */
  function ParentLock(a: LockType): (p: LockType)
    ensures CanBeParentLock(p, a)
    ensures p == NL <==> a == NL
    ensures a != NL ==> IsIntent(p)
  {
    match a
    case S => IS
    case X => IX
    case IS => IS
    case IX => IX
    case SIX => IX
    case NL => NL
  }

  /** Does holding `parent` on the parent resource allow granting `child` on a child? */
  function CanBeParentLock(parent: LockType, child: LockType): bool {
    match parent
    case S =>
      (match child
        case S => true
        case NL => true
        case _ => false)
    case X =>
      (match child
        case X => true
        case NL => true
        case _ => false)
    case IS =>
      (match child
        case S => true
        case IS => true
        case NL => true
        case _ => false)
    case IX =>
      (match child
        case S => true
        case X => true
        case IS => true
        case IX => true
        case SIX => true
        case NL => true)
    case SIX =>
      (match child
        case X => true
        case NL => true
        case _ => false)
    case NL =>
      (match child
        case NL => true
        case _ => false)
  }

  /**
   * Does a transaction that holds `substitute` already satisfy a need for
   * `required`, so that no new lock has to be acquired?
   */
  function Substitutable(substitute: LockType, required: LockType): (ok: bool)
    ensures substitute == required ==> ok
    ensures ok ==> (substitute == NL <==> required == NL)
  {
    match required
    case S =>
      (match substitute
        case S => true
        case SIX => true
        case X => true
        case _ => false)
    case X =>
      (match substitute
        case X => true
        case _ => false)
    case IS =>
      (match substitute
        case NL => false
        case S => false
        case _ => true)
    case IX =>
      (match substitute
        case IX => true
        case _ => false)
    case SIX =>
      (match substitute
        case IX => true
        case SIX => true
        case S => true
        case _ => false)
    case NL =>
      (match substitute
        case NL => true
        case _ => false)
  }

  /** True for the intention modes IX, IS and SIX. */
  predicate IsIntent(m: LockType) {
    m == IX || m == IS || m == SIX
  }

  /** The printed name of a mode: the name of its constant. */
  function Name(m: LockType): string {
    match m
    case S => "S"
    case X => "X"
    case IS => "IS"
    case IX => "IX"
    case SIX => "SIX"
    case NL => "NL"
  }

  // ---------------------------------------------------------------------
  // Compatibility

  /** Compatibility does not depend on which transaction asked first. */
  lemma CompatibleSymmetric(a: LockType, b: LockType)
    ensures Compatible(a, b) == Compatible(b, a)
  {
  }

  /** Holding no lock never conflicts with anything. */
  lemma NoLockCompatibleWithAll(m: LockType)
    ensures Compatible(NL, m) && Compatible(m, NL)
  {
  }

  /** An exclusive lock tolerates no other lock but NL, on either side. */
  lemma ExclusiveCompatibleOnlyWithNoLock(m: LockType)
    ensures Compatible(X, m) <==> m == NL
    ensures Compatible(m, X) <==> m == NL
  {
  }

  /** NL is the only mode compatible with every mode. */
  lemma OnlyNoLockCompatibleWithAll(a: LockType)
    ensures (forall b :: Compatible(a, b)) <==> a == NL
  {
    if a != NL {
      assert !Compatible(a, X);
    }
  }

  /** The literal entries of the compatibility table that callers rely on. */
  lemma CompatibleScenarios()
    ensures Compatible(S, S) && Compatible(IS, SIX) && Compatible(IX, IX)
    ensures !Compatible(S, X) && !Compatible(IX, S) && !Compatible(SIX, SIX)
  {
  }

  // ---------------------------------------------------------------------
  // Parent locks

  /** Asking for the parent's parent lock asks for nothing new. */
  lemma ParentLockIdempotent(a: LockType)
    ensures ParentLock(ParentLock(a)) == ParentLock(a)
  {
  }

  /**
   * The parent lock is IS for the read-only modes S and IS, IX for the modes
   * that may write (X, IX, SIX), and NL for NL.
   */
  lemma ParentLockCases(a: LockType)
    ensures ParentLock(a) == IS <==> a == S || a == IS
    ensures ParentLock(a) == IX <==> a == X || a == IX || a == SIX
    ensures ParentLock(a) == NL <==> a == NL
  {
  }

  /**
   * The locks requested on ancestors never block one another: whatever two
   * transactions want below, the parent locks they ask for are compatible.
   */
  lemma ParentLocksNeverConflict(a: LockType, b: LockType)
    ensures Compatible(ParentLock(a), ParentLock(b))
  {
  }

  // ---------------------------------------------------------------------
  // Parent / child permission

  /** Any parent permits a child that holds no lock. */
  lemma NoLockChildAlwaysAllowed(parent: LockType)
    ensures CanBeParentLock(parent, NL)
  {
  }

  /** A parent that holds no lock permits nothing but NL below it. */
  lemma NoLockParentAllowsOnlyNoLock(child: LockType)
    ensures CanBeParentLock(NL, child) <==> child == NL
  {
  }

  /** IX is the one parent mode under which every child mode may be granted. */
  lemma OnlyIntentExclusiveAllowsEveryChild(parent: LockType)
    ensures (forall child :: CanBeParentLock(parent, child)) <==> parent == IX
  {
    if parent != IX {
      var refused := if parent == X || parent == SIX then S else X;
      assert !CanBeParentLock(parent, refused);
    }
  }

  /**
   * Under the intention parents IS and IX, a child that takes a lock is
   * permitted exactly when the parent already satisfies the child's own
   * parent-lock requirement.
   */
  lemma IntentParentPermitsByParentLock(parent: LockType, child: LockType)
    requires parent == IS || parent == IX
    requires child != NL
    ensures CanBeParentLock(parent, child) <==> Substitutable(parent, ParentLock(child))
  {
  }

  /**
   * The S, X and SIX rows do not follow that rule. An S parent permits only
   * S and NL (not IS). An X parent permits only X and NL, so it permits an X
   * child although X does not satisfy IX, the parent lock an X child asks
   * for. A SIX parent permits only X and NL, although SIX satisfies IS, the
   * parent lock that an S child asks for.
   */
  lemma NonIntentRuleParentRows(child: LockType)
    ensures CanBeParentLock(S, child) <==> child == S || child == NL
    ensures CanBeParentLock(X, child) <==> child == X || child == NL
    ensures CanBeParentLock(SIX, child) <==> child == X || child == NL
    ensures !CanBeParentLock(S, IS)
    ensures CanBeParentLock(X, X) && !Substitutable(X, ParentLock(X))
    ensures Substitutable(SIX, ParentLock(S)) && !CanBeParentLock(SIX, S)
  {
  }

  /** A child can take a lock only if its parent holds one. */
  lemma LockedChildNeedsLockedParent(parent: LockType, child: LockType)
    requires CanBeParentLock(parent, child) && child != NL
    ensures parent != NL
  {
  }

  // ---------------------------------------------------------------------
  // Substitution

  /** X can stand in for S, but S cannot stand in for X. */
  lemma SubstitutableAsymmetric()
    ensures Substitutable(X, S) && !Substitutable(S, X)
  {
  }

  /** Only NL satisfies a need for NL. */
  lemma OnlyNoLockSubstitutesNoLock(s: LockType)
    ensures Substitutable(s, NL) <==> s == NL
  {
  }

  /** Only X satisfies a need for X. */
  lemma OnlyExclusiveSubstitutesExclusive(s: LockType)
    ensures Substitutable(s, X) <==> s == X
  {
  }

  /**
   * A need for X, IX or NL is met only by that very mode; every other need
   * is also met by some different mode.
   */
  lemma NeedsMetOnlyBySameMode(r: LockType)
    ensures (forall s :: Substitutable(s, r) ==> s == r) <==> r == X || r == IX || r == NL
  {
    if r == S || r == IS {
      assert Substitutable(X, r);
    } else if r == SIX {
      assert Substitutable(S, r);
    }
  }

  /** A need for IS is met by every mode except NL and S. */
  lemma IntentSharedSubstitutes(s: LockType)
    ensures Substitutable(s, IS) <==> s != NL && s != S
  {
  }

  /**
   * Substitution is not a preorder: IX stands in for SIX and SIX for S, yet
   * IX does not stand in for S; and S and SIX stand in for each other.
   */
  lemma SubstitutableNotTransitiveNorAntisymmetric()
    ensures Substitutable(IX, SIX) && Substitutable(SIX, S) && !Substitutable(IX, S)
    ensures Substitutable(S, SIX) && Substitutable(SIX, S) && S != SIX
  {
  }

  /** The literal substitution entries callers rely on. */
  lemma SubstitutableScenarios()
    ensures Substitutable(SIX, S) && !Substitutable(IS, S)
    ensures Substitutable(IX, SIX) && !Substitutable(X, IX)
  {
  }

  // ---------------------------------------------------------------------
  // Classification and names

  /** Exactly IS, IX and SIX are intention modes. */
  lemma IntentModes(m: LockType)
    ensures IsIntent(m) <==> m in {IS, IX, SIX}
    ensures !IsIntent(S) && !IsIntent(X) && !IsIntent(NL)
  {
  }

  /** Distinct modes print differently, so a printed name identifies its mode. */
  lemma NameInjective(a: LockType, b: LockType)
    ensures Name(a) == Name(b) ==> a == b
  {
  }
}
