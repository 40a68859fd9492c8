/**
 * The PostgreSQL database as the services see it: SQL text goes in, rows
 * or a driver error come out. What a query returns is an oracle; the model
 * keeps a record of every statement handed to the driver.
 */
module Database {
  import opened Values

  class Db {
    /** The rows a statement yields, or None when the driver raises. */
    const answer: string -> Option<seq<Row>>
    /** Every statement executed so far, oldest first. */
    ghost var executed: seq<string>

    constructor (answer: string -> Option<seq<Row>>)
      ensures this.answer == answer && executed == []
    {
      this.answer := answer;
      executed := [];
    }

    /** `db.execute(text(sql))` followed by `fetchall()`. */
    method Execute(sql: string) returns (rows: Option<seq<Row>>)
      modifies this
      ensures executed == old(executed) + [sql]
      ensures rows == answer(sql)
    {
      executed := executed + [sql];
      rows := answer(sql);
    }
  }
}
