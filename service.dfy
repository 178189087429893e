/**
 * The two endpoints of the in-memory service: `POST /upload` (`csv_upload`)
 * and `GET /summary/{user_id}` (`get_stats`), over the process-wide table
 * `app.state.csv_data`.
 */
module Service {
  import opened Wrappers
  import opened Aggregates
  import opened Transactions

  newtype byte = x: int | 0 <= x < 256

  /** The reply model of `/summary/{user_id}`. */
  datatype Statistics = Statistics(maximum: real, minimum: real, mean: real)

  /** Why an upload produced no acknowledgement. */
  datatype UploadError =
    | NotCsv        // the HTTPException raised when the name lacks the suffix
    | DecodeFailed  // `contents.decode("utf-8")` raised; the handler does not catch it
    | ParseFailed   // `pd.read_csv` raised; the handler does not catch it
  {
    /** The `detail` of the HTTPException, for the one error the handler raises itself. */
    function Detail(): Option<string>
    {
      if NotCsv? then Some("Uploaded file is not a CSV file") else None
    }
  }

  /** Why a summary produced no statistics. */
  datatype SummaryError =
    | NotUploaded            // nothing stored yet
    | UserNotFound           // no row carries the user id
    | MissingColumn(name: string)  // `csv_data[name]` raised KeyError
  {
    /** The `detail` of the HTTPException, for the errors the handler raises itself. */
    function Detail(): Option<string>
    {
      match this
      case NotUploaded => Some("CSV file has not been uploaded")
      case UserNotFound => Some("User ID not found in CSV file")
      case MissingColumn(_) => None
    }
  }

  const CsvSuffix: string := ".csv"
  const UploadedSuffix: string := " uploaded successfully"

  /** Python's `str.endswith`: a case-sensitive suffix test. */
  predicate EndsWith(s: string, suffix: string)
  {
    |suffix| <= |s| && s[|s| - |suffix|..] == suffix
  }

  /** `endswith` agrees with "the string is something followed by the suffix". */
  lemma EndsWithIff(s: string, suffix: string)
    ensures EndsWith(s, suffix) <==> exists p :: s == p + suffix
  {
    if EndsWith(s, suffix) {
      assert s == s[..|s| - |suffix|] + suffix;
    }
    if exists p :: s == p + suffix {
      var p :| s == p + suffix;
      assert s[|s| - |suffix|..] == suffix;
    }
  }

  /** The success message `f"{file.filename} uploaded successfully"`. */
  function Acknowledgement(filename: string): string
  {
    filename + UploadedSuffix
  }

  /** The message starts with the file name and ends with the fixed text. */
  lemma AcknowledgementEchoesName(filename: string)
    ensures Acknowledgement(filename)[..|filename|] == filename
    ensures EndsWith(Acknowledgement(filename), UploadedSuffix)
  {
  }

  /** Different file names give different messages: the name can be read back. */
  lemma AcknowledgementInjective(a: string, b: string)
    requires Acknowledgement(a) == Acknowledgement(b)
    ensures a == b
  {
    AcknowledgementEchoesName(a);
    AcknowledgementEchoesName(b);
    assert |a| == |b|;
  }

  /**
   * One call of `csv_upload` on the stored table `data`: the table afterwards
   * and the reply. `decode` stands for UTF-8 decoding and `readCsv` for
   * `pd.read_csv`; `None` from either is the exception it raises.
   */
  function UploadStep(data: Option<Frame>, filename: string, contents: seq<byte>,
                      decode: seq<byte> -> Option<string>, readCsv: string -> Option<Frame>)
    : (r: (Option<Frame>, Result<string, UploadError>))
    ensures r.1.Success? <==>
            EndsWith(filename, CsvSuffix) && decode(contents).Some? && readCsv(decode(contents).value).Some?
    ensures r.1 == Failure(NotCsv) <==> !EndsWith(filename, CsvSuffix)
    ensures r.1 == Failure(DecodeFailed) <==> EndsWith(filename, CsvSuffix) && decode(contents).None?
    ensures r.1 == Failure(ParseFailed) <==>
            EndsWith(filename, CsvSuffix) && decode(contents).Some? && readCsv(decode(contents).value).None?
    ensures r.1.Failure? ==> r.0 == data
    ensures r.1.Success? ==> r.0 == readCsv(decode(contents).value) && r.1.value == Acknowledgement(filename)
  {
    if EndsWith(filename, CsvSuffix) then
      match decode(contents)
      case None => (data, Failure(DecodeFailed))
      case Some(text) =>
        match readCsv(text)
        case None => (data, Failure(ParseFailed))
        case Some(frame) => (Some(frame), Success(Acknowledgement(filename)))
    else
      (data, Failure(NotCsv))
  }

  /**
   * What `get_stats` promises of a reply for a user: the maximum and the
   * minimum are amounts of the user's that bound all the others, and the
   * mean is their sum divided by their count.
   */
  ghost predicate Summarises(s: Statistics, amounts: seq<real>)
  {
    |amounts| > 0 &&
    s.maximum in amounts && (forall i :: 0 <= i < |amounts| ==> amounts[i] <= s.maximum) &&
    s.minimum in amounts && (forall i :: 0 <= i < |amounts| ==> s.minimum <= amounts[i]) &&
    s.mean == Sum(amounts) / (|amounts| as real)
  }

  /** At most one Statistics value summarises a given list of amounts. */
  lemma SummarisesUnique(s: Statistics, t: Statistics, amounts: seq<real>)
    requires Summarises(s, amounts) && Summarises(t, amounts)
    ensures s == t
  {
  }

  /** The numpy reductions yield the statistics that summarise the amounts. */
  lemma AggregatesSummarise(amounts: seq<real>)
    requires |amounts| > 0
    ensures Summarises(Statistics(Max(amounts), Min(amounts), Mean(amounts)), amounts)
    ensures Min(amounts) <= Mean(amounts) <= Max(amounts)
  {
    MeanBounds(amounts);
  }

  /**
   * One call of `get_stats` on the stored table `data`: no table, then a
   * table without a `user_id` column, then no row of the user, then no
   * `transaction_amount` column; otherwise the user's statistics.
   */
  function Summary(data: Option<Frame>, userId: int): (r: Result<Statistics, SummaryError>)
    ensures r == Failure(NotUploaded) <==> data.None?
    ensures data.Some? && UserIdColumn !in data.value.columns ==> r == Failure(MissingColumn(UserIdColumn))
    ensures r == Failure(UserNotFound) <==>
            data.Some? && UserIdColumn in data.value.columns && !HasUser(data.value.rows, userId)
    ensures data.Some? && UserIdColumn in data.value.columns && HasUser(data.value.rows, userId) &&
              AmountColumn !in data.value.columns ==>
            r == Failure(MissingColumn(AmountColumn))
    ensures r.Success? <==>
            data.Some? && UserIdColumn in data.value.columns && AmountColumn in data.value.columns &&
            HasUser(data.value.rows, userId)
    ensures r.Success? ==> Summarises(r.value, UserAmounts(data.value.rows, userId))
    ensures r.Success? ==> r.value.minimum <= r.value.mean <= r.value.maximum
  {
    match data
    case None => Failure(NotUploaded)
    case Some(frame) =>
      if UserIdColumn !in frame.columns then Failure(MissingColumn(UserIdColumn))
      else if !HasUser(frame.rows, userId) then Failure(UserNotFound)
      else if AmountColumn !in frame.columns then Failure(MissingColumn(AmountColumn))
      else
        var amounts := UserAmounts(frame.rows, userId);
        UserAmountsNonEmpty(frame.rows, userId);
        AggregatesSummarise(amounts);
        Success(Statistics(Max(amounts), Min(amounts), Mean(amounts)))
  }

  /** A failed upload leaves every summary as it was. */
  lemma FailedUploadKeepsSummaries(data: Option<Frame>, filename: string, contents: seq<byte>,
                                   decode: seq<byte> -> Option<string>, readCsv: string -> Option<Frame>,
                                   userId: int)
    requires UploadStep(data, filename, contents, decode, readCsv).1.Failure?
    ensures Summary(UploadStep(data, filename, contents, decode, readCsv).0, userId) == Summary(data, userId)
  {
  }

  /** The last successful upload wins: what was stored before it does not matter. */
  lemma LastUploadWins(before: Option<Frame>, other: Option<Frame>, filename: string, contents: seq<byte>,
                       decode: seq<byte> -> Option<string>, readCsv: string -> Option<Frame>)
    requires UploadStep(before, filename, contents, decode, readCsv).1.Success?
    ensures UploadStep(before, filename, contents, decode, readCsv) ==
            UploadStep(other, filename, contents, decode, readCsv)
  {
  }

  /** Uploading the same file twice leaves the same table and reply as uploading it once. */
  lemma ReuploadIdempotent(data: Option<Frame>, filename: string, contents: seq<byte>,
                           decode: seq<byte> -> Option<string>, readCsv: string -> Option<Frame>)
    ensures var once := UploadStep(data, filename, contents, decode, readCsv);
            UploadStep(once.0, filename, contents, decode, readCsv) == once
  {
  }

  /** A row of another user, wherever it stands in the table, does not change a summary. */
  lemma SummaryIgnoresOtherUsers(columns: set<string>, a: seq<Row>, r: Row, b: seq<Row>, userId: int)
    requires r.userId != userId
    ensures Summary(Some(Frame(columns, a + [r] + b)), userId) == Summary(Some(Frame(columns, a + b)), userId)
  {
    OtherUserRowIgnored(a, r, b, userId);
    SummaryDependsOnlyOnUserAmounts(Frame(columns, a + [r] + b), Frame(columns, a + b), userId);
  }

  /** A summary depends only on the columns and on the user's own amounts. */
  lemma SummaryDependsOnlyOnUserAmounts(f: Frame, g: Frame, userId: int)
    requires f.columns == g.columns
    requires UserAmounts(f.rows, userId) == UserAmounts(g.rows, userId)
    ensures Summary(Some(f), userId) == Summary(Some(g), userId)
  {
    UserAmountsNonEmpty(f.rows, userId);
    UserAmountsNonEmpty(g.rows, userId);
  }

  /** `app.state`: the table the last successful upload stored, if any. */
  class Store {
    var csvData: Option<Frame>

    /** `app.state.csv_data = None` at start-up. */
    constructor ()
      ensures csvData == None
    {
      csvData := None;
    }

    /** `csv_upload`: check the name, decode, parse, then replace the table. */
    method Upload(filename: string, contents: seq<byte>,
                  decode: seq<byte> -> Option<string>, readCsv: string -> Option<Frame>)
      returns (reply: Result<string, UploadError>)
      modifies this
      ensures (csvData, reply) == UploadStep(old(csvData), filename, contents, decode, readCsv)
    {
      if EndsWith(filename, CsvSuffix) {
        var text := decode(contents);
        if text.None? {
          return Failure(DecodeFailed);
        }
        var frame := readCsv(text.value);
        if frame.None? {
          return Failure(ParseFailed);
        }
        csvData := frame;
        reply := Success(Acknowledgement(filename));
      } else {
        reply := Failure(NotCsv);
      }
    }

    /** `get_stats`: reads the table and never changes it. */
    method GetStats(userId: int) returns (r: Result<Statistics, SummaryError>)
      ensures r == Summary(csvData, userId)
    {
      if csvData.Some? {
        var frame := csvData.value;
        if UserIdColumn !in frame.columns {
          return Failure(MissingColumn(UserIdColumn));
        }
        if !HasUser(frame.rows, userId) {
          return Failure(UserNotFound);
        }
        if AmountColumn !in frame.columns {
          return Failure(MissingColumn(AmountColumn));
        }
        var amounts := UserAmounts(frame.rows, userId);
        UserAmountsNonEmpty(frame.rows, userId);
        r := Success(Statistics(Max(amounts), Min(amounts), Mean(amounts)));
      } else {
        r := Failure(NotUploaded);
      }
    }
  }
}
