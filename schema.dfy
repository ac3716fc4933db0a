/**
 * The start-up decision about the metadata store's schema (`Storage.create_database`):
 * a store without a recorded revision is created and stamped at the head revision,
 * a store at another revision is upgraded to head, and a store at head is left alone.
 *
 * Connecting, creating tables, stamping and upgrading are done by the database
 * libraries; here their outcome is an input: `connectOk` says whether the engine was
 * opened and the recorded revision read, `createOk` whether creating and stamping
 * succeeded, `upgradeOk` whether the upgrade did.
 */
module Schema {
  import opened Wrappers

  /** A schema revision identifier. */
  type Rev = string

  /** The three things a bootstrap can do. */
  datatype Branch = CreateNew | Upgrade | NoOp

  /** The branch taken for a store whose recorded revision is `current`. */
  function BranchFor(current: Option<Rev>, head: Rev): Branch {
    if current.None? then CreateNew
    else if current.value != head then Upgrade
    else NoOp
  }

  /** The revision recorded once the bootstrap is over. A failed connection takes no
      branch; a failed creation is only logged, so the store keeps no revision; a failed
      upgrade is assumed to leave the revision it started from. */
  function RevisionAfter(current: Option<Rev>, head: Rev, connectOk: bool, createOk: bool, upgradeOk: bool): Option<Rev> {
    if !connectOk then current
    else
      match BranchFor(current, head)
      case CreateNew => if createOk then Some(head) else current
      case Upgrade => if upgradeOk then Some(head) else current
      case NoOp => current
  }

  /** The bootstrap raises when it cannot connect and read the revision, or when the
      upgrade it needs fails. */
  predicate BootstrapFails(current: Option<Rev>, head: Rev, connectOk: bool, upgradeOk: bool) {
    !connectOk || (BranchFor(current, head) == Upgrade && !upgradeOk)
  }

  /** Each branch is taken in exactly the situation it is meant for. */
  lemma BranchCases(current: Option<Rev>, head: Rev)
    ensures BranchFor(current, head) == CreateNew <==> current == None
    ensures BranchFor(current, head) == Upgrade <==> current.Some? && current.value != head
    ensures BranchFor(current, head) == NoOp <==> current == Some(head)
  {
  }

  /** A bootstrap whose foreign steps succeed leaves the store at head. */
  lemma BootstrapReachesHead(current: Option<Rev>, head: Rev, createOk: bool, upgradeOk: bool)
    requires createOk && upgradeOk
    ensures RevisionAfter(current, head, true, createOk, upgradeOk) == Some(head)
  {
  }

  /** The revision never moves anywhere but to head, and a bootstrap that raises leaves
      it where it was (for a failed upgrade, by the assumption stated on `RevisionAfter`). */
  lemma NoPartialAdvance(current: Option<Rev>, head: Rev, connectOk: bool, createOk: bool, upgradeOk: bool)
    ensures var next := RevisionAfter(current, head, connectOk, createOk, upgradeOk);
            next == current || next == Some(head)
    ensures BootstrapFails(current, head, connectOk, upgradeOk)
            ==> RevisionAfter(current, head, connectOk, createOk, upgradeOk) == current
  {
  }

  /** Once a bootstrap has reached head, the next one takes the no-op branch and changes
      nothing, whatever the foreign steps would have done; it can then only fail to connect. */
  lemma BootstrapIdempotent(current: Option<Rev>, head: Rev, connectOk: bool, createOk: bool, upgradeOk: bool,
                            connectOk': bool, createOk': bool, upgradeOk': bool)
    requires RevisionAfter(current, head, connectOk, createOk, upgradeOk) == Some(head)
    ensures var next := RevisionAfter(current, head, connectOk, createOk, upgradeOk);
            BranchFor(next, head) == NoOp
            && RevisionAfter(next, head, connectOk', createOk', upgradeOk') == next
            && (BootstrapFails(next, head, connectOk', upgradeOk') <==> !connectOk')
  {
  }

  /** A failed creation leaves a store without revision, so the next start-up tries to
      create it again. */
  lemma FailedCreateRetried(head: Rev, upgradeOk: bool)
    ensures RevisionAfter(None, head, true, false, upgradeOk) == None
    ensures BranchFor(RevisionAfter(None, head, true, false, upgradeOk), head) == CreateNew
  {
  }
}
