/**
 * The scenarios of the endpoint tests, replayed on the model. The tests'
 * own table file is not part of this model: `TestFrame` is a stand-in,
 * chosen so that it produces the statistics the tests assert.
 */
module Fixtures {
  import opened Wrappers
  import opened Transactions
  import opened Aggregates
  import opened Service

  const Header: set<string> :=
    {"transaction_id", UserIdColumn, "product_id", "timestamp", AmountColumn}

  /**
   * A stand-in for the statistics test's table: its ids, timestamps, row
   * order and amounts are chosen here, so that users 1, 2 and 3 get the
   * asserted maximum, minimum and mean.
   */
  function TestFrame(): Frame
  {
    Frame(Header, [
      Row("t1", 1, 100, "2024-01-01 10:00:00", 10.0),
      Row("t2", 2, 101, "2024-01-01 11:00:00", 5.0),
      Row("t3", 1, 102, "2024-01-02 10:00:00", 20.0),
      Row("t4", 3, 103, "2024-01-02 11:00:00", 50.0),
      Row("t5", 2, 104, "2024-01-03 10:00:00", 15.0),
      Row("t6", 1, 105, "2024-01-03 11:00:00", 30.0)])
  }

  /** The reductions on user 1's amounts. */
  lemma User1Aggregates()
    ensures Max([10.0, 20.0, 30.0]) == 30.0
    ensures Min([10.0, 20.0, 30.0]) == 10.0
    ensures Mean([10.0, 20.0, 30.0]) == 20.0
  {
  }

  /** The reductions on user 2's amounts. */
  lemma User2Aggregates()
    ensures Max([5.0, 15.0]) == 15.0
    ensures Min([5.0, 15.0]) == 5.0
    ensures Mean([5.0, 15.0]) == 10.0
  {
  }

  /** The selection made from the test table for each user. */
  lemma TestFrameAmounts()
    ensures UserAmounts(TestFrame().rows, 1) == [10.0, 20.0, 30.0]
    ensures UserAmounts(TestFrame().rows, 2) == [5.0, 15.0]
    ensures UserAmounts(TestFrame().rows, 3) == [50.0]
  {
  }

  /** The statistics the test expects for users 1, 2 and 3, and "not found" for user 4. */
  lemma TestFrameSummaries()
    ensures Summary(Some(TestFrame()), 1) == Success(Statistics(30.0, 10.0, 20.0))
    ensures Summary(Some(TestFrame()), 2) == Success(Statistics(15.0, 5.0, 10.0))
    ensures Summary(Some(TestFrame()), 3) == Success(Statistics(50.0, 50.0, 50.0))
    ensures Summary(Some(TestFrame()), 4) == Failure(UserNotFound)
  {
    TestFrameAmounts();
    User1Aggregates();
    User2Aggregates();
    ConstantAggregates([50.0], 50.0);
    OutOfRangeIdsNotFound(4);
  }

  /** Ids 0, -1 and 1001 match no row, so each is "not found", not another error. */
  lemma OutOfRangeIdsNotFound(userId: int)
    requires userId <= 0 || userId > 3
    ensures Summary(Some(TestFrame()), userId) == Failure(UserNotFound)
  {
  }

  /** The upload test's Markdown file, and an upper-case extension, are refused without touching the table. */
  lemma NonCsvNamesRefused(data: Option<Frame>, contents: seq<byte>,
                           decode: seq<byte> -> Option<string>, readCsv: string -> Option<Frame>)
    ensures UploadStep(data, "README.md", contents, decode, readCsv) == (data, Failure(NotCsv))
    ensures UploadStep(data, "DATA.CSV", contents, decode, readCsv) == (data, Failure(NotCsv))
  {
  }

  /** The two CSV files the tests upload, when readable, are stored and acknowledged by name. */
  lemma TestCsvFilesAccepted(data: Option<Frame>, contents: seq<byte>,
                             decode: seq<byte> -> Option<string>, readCsv: string -> Option<Frame>)
    requires decode(contents).Some? && readCsv(decode(contents).value).Some?
    ensures UploadStep(data, "test.csv", contents, decode, readCsv).0 == readCsv(decode(contents).value)
    ensures UploadStep(data, "test.csv", contents, decode, readCsv).1 == Success("test.csv uploaded successfully")
    ensures UploadStep(data, "dummy_transactions.csv", contents, decode, readCsv).0 == readCsv(decode(contents).value)
    ensures UploadStep(data, "dummy_transactions.csv", contents, decode, readCsv).1 ==
            Success("dummy_transactions.csv uploaded successfully")
  {
    assert EndsWith("test.csv", CsvSuffix);
    assert Acknowledgement("test.csv") == "test.csv uploaded successfully";
    assert EndsWith("dummy_transactions.csv", CsvSuffix);
    assert Acknowledgement("dummy_transactions.csv") == "dummy_transactions.csv uploaded successfully";
  }


  /**
   * Calls taken from several tests, on a fresh store as if each test had
   * its own application state: the early summary, the refused Markdown
   * upload, the statistics upload and two summaries.
   */
  method IsolatedTestScenario(contents: seq<byte>,
                     decode: seq<byte> -> Option<string>, readCsv: string -> Option<Frame>)
    returns (early: Result<Statistics, SummaryError>, wrongType: Result<string, UploadError>,
             uploaded: Result<string, UploadError>, user1: Result<Statistics, SummaryError>,
             user0: Result<Statistics, SummaryError>)
    requires decode(contents).Some? && readCsv(decode(contents).value) == Some(TestFrame())
    ensures early == Failure(NotUploaded)
    ensures wrongType == Failure(NotCsv)
    ensures uploaded == Success("test.csv uploaded successfully")
    ensures user1 == Success(Statistics(30.0, 10.0, 20.0))
    ensures user0 == Failure(UserNotFound)
  {
    var store := new Store();
    early := store.GetStats(1);
    wrongType := store.Upload("README.md", contents, decode, readCsv);
    NonCsvNamesRefused(None, contents, decode, readCsv);
    TestCsvFilesAccepted(None, contents, decode, readCsv);
    uploaded := store.Upload("test.csv", contents, decode, readCsv);
    TestFrameSummaries();
    user1 := store.GetStats(1);
    OutOfRangeIdsNotFound(0);
    user0 := store.GetStats(0);
  }

  /**
   * The first three tests in the order the test module runs them, sharing
   * one application state: the refused Markdown upload, the accepted upload
   * of the dummy file, then the early summary. The dummy file decodes and
   * parses, since its upload is asserted to succeed; so the early summary
   * cannot be "not uploaded".
   */
  method ReplayTestsInFileOrder(dummy: seq<byte>,
                                decode: seq<byte> -> Option<string>, readCsv: string -> Option<Frame>)
    returns (wrongType: Result<string, UploadError>, uploaded: Result<string, UploadError>,
             early: Result<Statistics, SummaryError>)
    requires decode(dummy).Some? && readCsv(decode(dummy).value).Some?
    ensures wrongType == Failure(NotCsv)
    ensures uploaded == Success("dummy_transactions.csv uploaded successfully")
    ensures early != Failure(NotUploaded)
  {
    var store := new Store();
    wrongType := store.Upload("README.md", dummy, decode, readCsv);
    NonCsvNamesRefused(None, dummy, decode, readCsv);
    TestCsvFilesAccepted(None, dummy, decode, readCsv);
    uploaded := store.Upload("dummy_transactions.csv", dummy, decode, readCsv);
    assert store.csvData.Some?;
    early := store.GetStats(1);
  }
}
