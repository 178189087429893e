/**
 * The table that `pd.read_csv` builds from an uploaded file, and the
 * per-user selection the summary endpoint makes from it.
 */
module Transactions {

  /** One CSV data row, with the column types the upload expects. */
  datatype Row = Row(
    transactionId: string,
    userId: int,
    productId: int,
    timestamp: string,
    amount: real)

  /**
   * A parsed table: the header's column names, and the data rows in file
   * order. A field of a Row whose column is absent from `columns` means nothing.
   */
  datatype Frame = Frame(columns: set<string>, rows: seq<Row>)

  const UserIdColumn: string := "user_id"
  const AmountColumn: string := "transaction_amount"

  /** `(csv_data["user_id"] == user_id).any()`: some row belongs to the user. */
  predicate HasUser(rows: seq<Row>, userId: int)
  {
    exists i :: 0 <= i < |rows| && rows[i].userId == userId
  }

  /**
   * `csv_data[csv_data["user_id"] == user_id]["transaction_amount"]`:
   * the user's amounts, in row order.
   */
  function UserAmounts(rows: seq<Row>, userId: int): seq<real>
  {
    if rows == [] then []
    else if rows[0].userId == userId then [rows[0].amount] + UserAmounts(rows[1..], userId)
    else UserAmounts(rows[1..], userId)
  }

  /** The selected amounts are exactly the amounts of the user's rows. */
  lemma {:induction false} UserAmountsMembers(rows: seq<Row>, userId: int, x: real)
    ensures x in UserAmounts(rows, userId) <==>
            exists i :: 0 <= i < |rows| && rows[i].userId == userId && rows[i].amount == x
  {
    if rows != [] {
      UserAmountsMembers(rows[1..], userId, x);
      if exists i :: 0 <= i < |rows| && rows[i].userId == userId && rows[i].amount == x {
        var i :| 0 <= i < |rows| && rows[i].userId == userId && rows[i].amount == x;
        if i > 0 {
          assert rows[1..][i - 1] == rows[i];
        }
      }
      if exists j :: 0 <= j < |rows[1..]| && rows[1..][j].userId == userId && rows[1..][j].amount == x {
        var j :| 0 <= j < |rows[1..]| && rows[1..][j].userId == userId && rows[1..][j].amount == x;
        assert rows[j + 1] == rows[1..][j];
      }
    }
  }

  /** A user has rows exactly when their selection is non-empty. */
  lemma {:induction false} UserAmountsNonEmpty(rows: seq<Row>, userId: int)
    ensures |UserAmounts(rows, userId)| > 0 <==> HasUser(rows, userId)
  {
    if rows != [] {
      UserAmountsNonEmpty(rows[1..], userId);
      if HasUser(rows, userId) && rows[0].userId != userId {
        var i :| 0 <= i < |rows| && rows[i].userId == userId;
        assert rows[1..][i - 1] == rows[i];
      }
      if HasUser(rows[1..], userId) {
        var j :| 0 <= j < |rows[1..]| && rows[1..][j].userId == userId;
        assert rows[j + 1] == rows[1..][j];
      }
    }
  }

  /** Selecting from two tables one after the other is selecting from their concatenation. */
  lemma {:induction false} UserAmountsConcat(a: seq<Row>, b: seq<Row>, userId: int)
    ensures UserAmounts(a + b, userId) == UserAmounts(a, userId) + UserAmounts(b, userId)
  {
    if a == [] {
      assert a + b == b;
    } else {
      assert (a + b)[0] == a[0];
      assert (a + b)[1..] == a[1..] + b;
      UserAmountsConcat(a[1..], b, userId);
    }
  }

  /** A row of another user, wherever it stands, does not change the selection. */
  lemma OtherUserRowIgnored(a: seq<Row>, r: Row, b: seq<Row>, userId: int)
    requires r.userId != userId
    ensures UserAmounts(a + [r] + b, userId) == UserAmounts(a + b, userId)
  {
    UserAmountsConcat(a + [r], b, userId);
    UserAmountsConcat(a, [r], userId);
    UserAmountsConcat(a, b, userId);
    assert UserAmounts([r], userId) == [];
  }
}
