/**
 * An independent reading of the lock modes by what they let a transaction
 * do: read or write the whole resource, or announce that it will read or
 * write some of the resource's descendants. The compatibility table and the
 * parent-lock choice of module LockTypes are derived here from these access
 * components and shown to agree with the tables as coded.
 */
module AccessSemantics {
  import opened LockTypes

  /** One component of what a lock mode permits on a resource. */
  datatype Access =
    | ReadAll      // read the resource and everything below it
    | WriteAll     // write the resource and everything below it
    | IntendRead   // take shared locks on descendants
    | IntendWrite  // take exclusive locks on descendants

  /** The access components a mode grants. SIX is S plus IX. */
  function Grants(m: LockType): set<Access> {
    match m
    case NL => {}
    case IS => {IntendRead}
    case IX => {IntendRead, IntendWrite}
    case S => {ReadAll}
    case SIX => {ReadAll, IntendRead, IntendWrite}
    case X => {ReadAll, WriteAll}
  }

  /**
   * Two transactions' grants clash when one writes the whole resource while
   * the other holds anything on it, or when one reads the whole resource
   * while the other is about to write part of it.
   */
  predicate Conflict(p: set<Access>, q: set<Access>) {
    || (WriteAll in p && q != {})
    || (WriteAll in q && p != {})
    || (ReadAll in p && IntendWrite in q)
    || (IntendWrite in p && ReadAll in q)
  }

  /** The intention mode a parent must hold so that a child may use `acc`. */
  function IntentionFor(acc: set<Access>): LockType {
    if WriteAll in acc || IntendWrite in acc then IX
    else if acc != {} then IS
    else NL
  }

  /** The coded compatibility table is exactly "the grants do not clash". */
  lemma CompatibleIffNoConflict(a: LockType, b: LockType)
    ensures Compatible(a, b) <==> !Conflict(Grants(a), Grants(b))
  {
  }

  /** The coded parent lock is the intention covering what the child grants. */
  lemma ParentLockIsIntentionForGrants(a: LockType)
    ensures ParentLock(a) == IntentionFor(Grants(a))
  {
  }

  /** A mode is an intention mode exactly when it announces descendant locks. */
  lemma IsIntentIffAnnouncesDescendants(m: LockType)
    ensures IsIntent(m) <==> IntendRead in Grants(m) || IntendWrite in Grants(m)
  {
  }

  /**
   * Substitution read as "the substitute grants everything the required mode
   * grants", and where the coded table departs from that reading. The table
   * accepts more at (S, SIX), (IX, SIX) and (X, IS), and less at (SIX, IX)
   * and wherever NL is required from a mode other than NL.
   */
  lemma SubstitutableVersusGrants(s: LockType, r: LockType)
    ensures Substitutable(s, r) && !(Grants(r) <= Grants(s)) <==>
              (s == S && r == SIX) || (s == IX && r == SIX) || (s == X && r == IS)
    ensures !Substitutable(s, r) && Grants(r) <= Grants(s) <==>
              (s == SIX && r == IX) || (r == NL && s != NL)
  {
  }
}
