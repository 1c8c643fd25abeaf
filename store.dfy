/**
 * The data store as the application sees it through a database cursor. The
 * store itself is not modelled: every query is answered by an abstract oracle
 * that returns the cursor description and the fetched rows, or a database
 * error.
 */
module Store {
  import opened Wrappers

  /** A cell of a fetched row; the application passes cells through untouched. */
  datatype Value = Null | Int(i: int) | Text(s: string)

  /** A fetched row (a Python tuple). */
  type Row = seq<Value>

  /** One entry of `cursor.description`; entry `desc[0]` is the column name. */
  datatype Column = Column(name: string, typeCode: int)

  /** The parameterised statements the application issues. */
  datatype Query =
    | SelectWhere(table: string, column: string, param: string)  // SELECT * FROM table WHERE column = %s
    | ReactionCounts(uid: string)  // SELECT reac_type, COUNT(*) AS cnt ... GROUP BY reac_type ORDER BY cnt DESC

  /** What the store does with one query. */
  datatype Response = Rows(description: seq<Column>, rows: seq<Row>) | Error(message: string)

  /** A database reached by `get_db_connection`; connecting fails when it is unreachable. */
  datatype DataStore = DataStore(reachable: bool, answer: Query -> Response)

  /** `[desc[0] for desc in description]`. */
  function Names(description: seq<Column>): (names: seq<string>)
    ensures |names| == |description|
    ensures forall i :: 0 <= i < |description| ==> names[i] == description[i].name
  {
    seq(|description|, i requires 0 <= i < |description| => description[i].name)
  }

  /**
   * A database cursor over one connection. `executed` records every statement
   * sent, in order, so that callers can state which lookups a request performs.
   */
  class Cursor {
    const answer: Query -> Response
    var description: seq<Column>
    var pending: seq<Row>
    var executed: seq<Query>

    constructor (answer: Query -> Response)
      ensures this.answer == answer
      ensures description == [] && pending == [] && executed == []
    {
      this.answer := answer;
      description := [];
      pending := [];
      executed := [];
    }

    /** `cursor.execute(sql, params)`: a database error is returned as `Some(message)`. */
    method Execute(q: Query) returns (error: Option<string>)
      modifies this
      ensures executed == old(executed) + [q]
      ensures answer(q).Rows? ==> error == None && description == answer(q).description && pending == answer(q).rows
      ensures answer(q).Error? ==> error == Some(answer(q).message)
                                   && description == old(description) && pending == old(pending)
    {
      executed := executed + [q];
      match answer(q)
      case Rows(d, r) =>
        description, pending := d, r;
        error := None;
      case Error(m) =>
        error := Some(m);
    }

    /** `cursor.fetchall()`: all rows not yet fetched. */
    method FetchAll() returns (rows: seq<Row>)
      modifies this
      ensures rows == old(pending) && pending == []
      ensures description == old(description) && executed == old(executed)
    {
      rows := pending;
      pending := [];
    }
  }
}
