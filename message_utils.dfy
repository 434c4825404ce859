/**
 * The history buffer, the day count and the date reordering of
 * src/utils/messageUtils.js.
 */
module MessageUtils {
  import opened Text
  import opened JsValue
  import opened UserModel

  /** The number of history entries `updateLastMessages` keeps. */
  const HistoryLimit := 20

  /** The history after `push` and, when it has grown past the limit, one `shift`. */
  function PushBounded(h: seq<ChatMessage>, m: ChatMessage): seq<ChatMessage> {
    var pushed := h + [m];
    if |pushed| > HistoryLimit then pushed[1..] else pushed
  }

  /** The new entry is the last one; the oldest is dropped once the limit is reached, so the limit is never exceeded again. */
  lemma PushBoundedShape(h: seq<ChatMessage>, m: ChatMessage)
    ensures var r := PushBounded(h, m);
            |r| >= 1 && r[|r| - 1] == m
            && (|h| < HistoryLimit ==> r == h + [m])
            && (|h| >= HistoryLimit ==> r == h[1..] + [m])
            && (|h| <= HistoryLimit ==> |r| <= HistoryLimit)
            && (|h| > HistoryLimit ==> |r| == |h|)
  {
  }

  /** `updateLastMessages(user, message, role)`: appends to the record's history in place. */
  method UpdateLastMessages(user: User, message: string, role: string)
    modifies user
    ensures user.State() == old(user.State()).(lastMessages := PushBounded(old(user.lastMessages), ChatMessage(role, message)))
  {
    user.lastMessages := user.lastMessages + [ChatMessage(role, message)];
    if |user.lastMessages| > HistoryLimit {
      user.lastMessages := user.lastMessages[1..];
    }
  }

  /** The history after a run of `updateLastMessages` calls. */
  function PushAll(h: seq<ChatMessage>, ms: seq<ChatMessage>): seq<ChatMessage>
    decreases |ms|
  {
    if ms == [] then h else PushAll(PushBounded(h, ms[0]), ms[1..])
  }

  /** The newest `HistoryLimit` entries of `s`. */
  function Newest(s: seq<ChatMessage>): (r: seq<ChatMessage>)
    ensures |r| <= HistoryLimit
  {
    if |s| <= HistoryLimit then s else s[|s| - HistoryLimit..]
  }

  lemma NewestOfSuffix(p: seq<ChatMessage>, y: seq<ChatMessage>, z: seq<ChatMessage>)
    requires |y| >= HistoryLimit || p == []
    ensures Newest(p + y + z) == Newest(y + z)
  {
    if p != [] && |y + z| >= HistoryLimit {
      var all := p + y + z;
      assert all[|all| - HistoryLimit..] == (y + z)[|y + z| - HistoryLimit..];
    } else if p == [] {
      assert p + y + z == y + z;
    }
  }

  /**
   * Starting from a history of at most `HistoryLimit` entries, any number of
   * calls leaves exactly the newest `HistoryLimit` messages, oldest first.
   */
  lemma {:induction false} PushAllKeepsNewest(h: seq<ChatMessage>, ms: seq<ChatMessage>)
    requires |h| <= HistoryLimit
    ensures PushAll(h, ms) == Newest(h + ms)
    ensures |PushAll(h, ms)| <= HistoryLimit
    decreases |ms|
  {
    if ms == [] {
      assert h + ms == h;
    } else {
      var h' := PushBounded(h, ms[0]);
      PushAllKeepsNewest(h', ms[1..]);
      assert h + ms == h + [ms[0]] + ms[1..];
      if |h| < HistoryLimit {
        assert h' == h + [ms[0]];
      } else {
        var p := [h[0]];
        assert h + [ms[0]] == p + h';
        NewestOfSuffix(p, h', ms[1..]);
        assert h + ms == p + h' + ms[1..];
      }
    }
  }

  // --- dates ---

  /** `new Date(x)` as a whole day number, or an Invalid Date. */
  datatype Date = Day(n: int) | InvalidDate

  const MsPerDay := 1000 * 3600 * 24

  function Millis(d: Date): Num {
    match d
    case Day(n) => Finite(n * MsPerDay)
    case InvalidDate => NaN
  }

  /** `calculateDaysBetweenDates(start, end)`: `(end - start) / (1000 * 3600 * 24)`. */
  function CalculateDaysBetweenDates(start: Date, end: Date): (days: Num)
    ensures start.Day? && end.Day? ==> days == Finite(end.n - start.n)
    ensures !(start.Day? && end.Day?) ==> days == NaN
  {
    match (Millis(start), Millis(end))
    case (Finite(s), Finite(e)) => Finite((e - s) / MsPerDay)
    case _ => NaN
  }

  /** The count is signed and unguarded: a stay that ends before it starts gives a negative number. */
  lemma DaysCanBeZeroOrNegative(d: int)
    ensures CalculateDaysBetweenDates(Day(d), Day(d)) == Finite(0)
    ensures CalculateDaysBetweenDates(Day(d + 1), Day(d)) == Finite(-1)
  {
  }

  /** `convertDateFormat(s)`: split on ".", then `${day}.${month}.${year}` of the first three parts. */
  function ConvertDateFormat(s: string): string {
    var parts := Split(s, '.');
    PartOrUndefined(parts, 2) + "." + PartOrUndefined(parts, 1) + "." + PartOrUndefined(parts, 0)
  }

  /** Reversing the three parts twice gives the input back. */
  lemma ConvertDateFormatTwice(s: string)
    requires |Split(s, '.')| == 3
    ensures ConvertDateFormat(ConvertDateFormat(s)) == s
  {
    var p := Split(s, '.');
    var once := ConvertDateFormat(s);
    JoinCons(p[2], [p[1], p[0]], ".");
    JoinCons(p[1], [p[0]], ".");
    assert [p[2]] + [p[1], p[0]] == [p[2], p[1], p[0]];
    assert once == Join([p[2], p[1], p[0]], ".");
    SplitJoin([p[2], p[1], p[0]], '.');
    JoinSplit(s, '.');
    JoinCons(p[0], [p[1], p[2]], ".");
    JoinCons(p[1], [p[2]], ".");
    assert [p[0]] + [p[1], p[2]] == p;
  }

  /** A date without dots, such as the dashed YYYY-MM-DD the function's own description names, is not split at all (see Findings). */
  lemma ConvertDateFormatOnDashedDate(s: string)
    requires '.' !in s
    ensures ConvertDateFormat(s) == "undefined.undefined." + s
  {
    SplitWithoutSeparator(s, '.');
    assert ConvertDateFormat(s) == "undefined" + "." + "undefined" + "." + s;
    UndefinedPrefix(s);
  }

  lemma UndefinedPrefix(s: string)
    ensures "undefined" + "." + "undefined" + "." + s == "undefined.undefined." + s
  {
    assert "undefined" + "." + "undefined" + "." == "undefined.undefined.";
  }

  /** The conversion the description promises: YYYY-MM-DD to DD.MM.YYYY. */
  function ConvertIsoDate(s: string): string {
    var parts := Split(s, '-');
    PartOrUndefined(parts, 2) + "." + PartOrUndefined(parts, 1) + "." + PartOrUndefined(parts, 0)
  }

  /** For a date with three dash-separated parts the result is day, month and year joined with dots. */
  lemma ConvertIsoDateReorders(year: string, month: string, day: string)
    requires '-' !in year && '-' !in month && '-' !in day
    ensures ConvertIsoDate(year + "-" + month + "-" + day) == day + "." + month + "." + year
  {
    var s := year + "-" + month + "-" + day;
    JoinCons(year, [month, day], "-");
    JoinCons(month, [day], "-");
    assert [year] + [month, day] == [year, month, day];
    assert Join([year, month, day], "-") == s;
    SplitJoin([year, month, day], '-');
  }
}
