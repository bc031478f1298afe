/** internal/store/task_store.go and contract_store.go. */
module TaskTransactions {
  import opened Domain
  import opened Tables
  import opened Workflow

  // --- CreateTask -------------------------------------------------------------

  predicate CreateTaskAdmits(db: DB, task: Id) { task !in db.tasks }

  function CreateTaskCommit(db: DB, task: Id, pair: Id): DB {
    db.(tasks := db.tasks[task := Task(pair, Draft, 0)])
  }

  // --- InsertTaskContract -----------------------------------------------------

  predicate InsertContractAdmits(db: DB, id: Id, task: Id, revision: int, supersedes: Option<Id>, baseSha: Id) {
    && revision >= 1
    && task in db.tasks
    && (if revision == 1
        then db.tasks[task].state.Draft? && supersedes.None?
        else
          && (db.tasks[task].state.RevisionRequired? || db.tasks[task].state.Draft?)
          && supersedes.Some?
          && supersedes.value in db.contracts
          && var prev := db.contracts[supersedes.value];
          && prev.task == task && prev.revision == revision - 1 && prev.baseSha == baseSha && prev.frozen)
    // primary key, UNIQUE(task_id, revision_number) and UNIQUE(supersedes_contract_id)
    && id !in db.contracts
    && (forall c | c in db.contracts :: !(db.contracts[c].task == task && db.contracts[c].revision == revision))
    && (supersedes.Some? ==> forall c | c in db.contracts :: db.contracts[c].supersedes != supersedes)
  }

  function InsertContractCommit(db: DB, id: Id, task: Id, revision: int, supersedes: Option<Id>, baseSha: Id): DB {
    db.(contracts := db.contracts[id := Contract(task, revision, supersedes, baseSha, false)])
  }

  // --- TransitionTask -----------------------------------------------------------

  predicate IsLatest(contracts: map<Id, Contract>, c: Id, task: Id) {
    && c in contracts && contracts[c].task == task
    && forall k | k in contracts :: contracts[k].task == task ==> contracts[k].revision <= contracts[c].revision
  }

  /** The governing contract a task needs to become READY. */
  predicate ReadyContract(db: DB, task: Id, from: TaskState) {
    exists c | c in db.contracts ::
      && IsLatest(db.contracts, c, task)
      && match from
         case Draft => !db.contracts[c].frozen
         case RevisionRequired => !db.contracts[c].frozen
         case Failed => db.contracts[c].frozen
         case _ => false
  }

  predicate TransitionAdmits(db: DB, task: Id, from: TaskState, to: TaskState) {
    && !(from.Ready? && to.Dispatched?)
    && CanTransition(from, to)
    && task in db.tasks
    && db.tasks[task].state == from
    && (to.Ready? ==> ReadyContract(db, task, from))
    && (to.Running? || to.Reviewing? ==> !LaneBusy(db.tasks, db.tasks[task].pair, task))
  }

  function TransitionCommit(db: DB, task: Id, to: TaskState): DB
    requires task in db.tasks
  {
    db.(tasks := db.tasks[task := db.tasks[task].(state := to)])
  }
}
