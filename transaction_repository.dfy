/**
 * The repository in front of the DAO. Every operation forwards to the DAO unchanged: the getters
 * return the DAO's answer as is (no re-ordering, no filtering, no defaulting of a null total) and each
 * mutator performs exactly one DAO call with the same record.
 */
module TransactionRepository {
  import opened Wrappers
  import opened TransactionModel
  import opened TransactionDAO

  class TransactionRepository {
    const transactionDao: TransactionDao

    ghost predicate Valid()
      reads this, transactionDao
    {
      transactionDao.Valid()
    }

    constructor (transactionDao: TransactionDao)
      ensures this.transactionDao == transactionDao
    {
      this.transactionDao := transactionDao;
    }

    function GetAllTransactions(): (r: seq<Transaction>)
      reads this, transactionDao
      ensures r == transactionDao.GetAllTransactions()
      ensures DateDescending(r) && multiset(r) == multiset(transactionDao.rows)
    {
      transactionDao.GetAllTransactions()
    }

    function GetTransactionsByType(k: TransactionType): (r: seq<Transaction>)
      reads this, transactionDao
      ensures r == transactionDao.GetTransactionsByType(k)
      ensures DateDescending(r) && forall x :: x in r <==> x in transactionDao.rows && x.kind == k
    {
      transactionDao.GetTransactionsByType(k)
    }

    /** The DAO's nullable total, passed through: no row of type `k` still gives `None`, not 0. */
    function GetTotalByType(k: TransactionType): (r: Option<int>)
      reads this, transactionDao
      ensures r == transactionDao.GetTotalByType(k)
      ensures r.None? <==> forall x :: x in transactionDao.rows ==> x.kind != k
    {
      transactionDao.GetTotalByType(k)
    }

    /** One DAO insert of the same record: the table changes exactly as that insert changes it. */
    method InsertTransaction(transaction: Transaction)
      requires Valid()
      modifies transactionDao
      ensures Valid()
      ensures transactionDao.rows == Upsert(old(transactionDao.rows), StoredRow(old(transactionDao.lastId), transaction))
      ensures transactionDao.lastId == Max(old(transactionDao.lastId), AssignedId(old(transactionDao.lastId), transaction))
    {
      transactionDao.InsertTransaction(transaction);
    }

    /** One DAO delete of the same record. */
    method DeleteTransaction(transaction: Transaction)
      requires Valid()
      modifies transactionDao
      ensures Valid()
      ensures transactionDao.rows == RemoveKey(old(transactionDao.rows), transaction.id)
      ensures transactionDao.lastId == old(transactionDao.lastId)
    {
      transactionDao.DeleteTransaction(transaction);
    }
  }
}
