/** Session identifiers shared by the analysis handler and the multi-document ingestor:
    a caller's id is reused, otherwise `session_<UTC %Y%m%d_%H%M%S>_<8 hex digits>` is minted. */
module Sessions {
  import opened Wrappers
  import opened Text

  /** A UTC clock reading as `datetime` gives it. The clock is an input of the model. */
  datatype Timestamp = Timestamp(year: int, month: int, day: int, hour: int, minute: int, second: int)

  /** The readings the clock can give; four-digit years keep `%Y` at four characters on every
      platform. */
  predicate ValidTimestamp(t: Timestamp)
  {
    && 1000 <= t.year <= 9999
    && 1 <= t.month <= 12
    && 1 <= t.day <= 31
    && 0 <= t.hour <= 23
    && 0 <= t.minute <= 59
    && 0 <= t.second <= 59
  }

  /** `t.strftime('%Y%m%d_%H%M%S')` */
  function Strftime(t: Timestamp): (s: string)
    requires ValidTimestamp(t)
    ensures |s| == 15 && s[8] == '_'
    ensures AllDigits(s[..8]) && AllDigits(s[9..])
  {
    Pad4(t.year) + Pad2(t.month) + Pad2(t.day) + "_" + Pad2(t.hour) + Pad2(t.minute) + Pad2(t.second)
  }

  /** Different clock readings give different stamps. */
  lemma StrftimeInjective(t1: Timestamp, t2: Timestamp)
    requires ValidTimestamp(t1) && ValidTimestamp(t2)
    requires Strftime(t1) == Strftime(t2)
    ensures t1 == t2
  {
    var s1, s2 := Strftime(t1), Strftime(t2);
    assert s1[..4] == Pad4(t1.year) && s2[..4] == Pad4(t2.year);
    assert s1[4..6] == Pad2(t1.month) && s2[4..6] == Pad2(t2.month);
    assert s1[6..8] == Pad2(t1.day) && s2[6..8] == Pad2(t2.day);
    assert s1[9..11] == Pad2(t1.hour) && s2[9..11] == Pad2(t2.hour);
    assert s1[11..13] == Pad2(t1.minute) && s2[11..13] == Pad2(t2.minute);
    assert s1[13..] == Pad2(t1.second) && s2[13..] == Pad2(t2.second);
    Pad4Injective(t1.year, t2.year);
    Pad2Injective(t1.month, t2.month);
    Pad2Injective(t1.day, t2.day);
    Pad2Injective(t1.hour, t2.hour);
    Pad2Injective(t1.minute, t2.minute);
    Pad2Injective(t1.second, t2.second);
  }

  /** What `uuid.uuid4().hex` looks like: 32 lower-case hexadecimal digits. */
  predicate IsUuidHex(h: string)
  {
    |h| == 32 && forall i :: 0 <= i < |h| ==> IsHexDigit(h[i])
  }

  /** `uuid.uuid4().hex[:8]`: eight hexadecimal digits, so no dot and no slash. */
  function ShortHex(h: string): (s: string)
    requires IsUuidHex(h)
    ensures |s| == 8 && '.' !in s && '/' !in s && '_' !in s
  {
    assert forall i :: 0 <= i < 8 ==> h[..8][i] == h[i];
    h[..8]
  }

  /** `f"session_{stamp}_{uuid.uuid4().hex[:8]}"` */
  function NewSessionId(t: Timestamp, h: string): string
    requires ValidTimestamp(t) && IsUuidHex(h)
  {
    "session_" + Strftime(t) + "_" + ShortHex(h)
  }

  /** A minted id is 32 characters long and determines both the clock reading and the random
      digits: two sessions collide only when both their stamps and their random digits do. */
  lemma NewSessionIdsDistinct(t1: Timestamp, h1: string, t2: Timestamp, h2: string)
    requires ValidTimestamp(t1) && IsUuidHex(h1) && ValidTimestamp(t2) && IsUuidHex(h2)
    ensures |NewSessionId(t1, h1)| == 32
    ensures NewSessionId(t1, h1) == NewSessionId(t2, h2) <==> t1 == t2 && ShortHex(h1) == ShortHex(h2)
  {
    var a, b := NewSessionId(t1, h1), NewSessionId(t2, h2);
    if a == b {
      assert a[8..23] == Strftime(t1) && b[8..23] == Strftime(t2);
      assert a[24..] == ShortHex(h1) && b[24..] == ShortHex(h2);
      StrftimeInjective(t1, t2);
    }
  }

  /** `session_id or f"session_..."`: a supplied id is used verbatim unless it is empty (an empty
      string is falsy, so it is replaced like a missing one). */
  function SessionId(supplied: Option<string>, t: Timestamp, h: string): (id: string)
    requires ValidTimestamp(t) && IsUuidHex(h)
    ensures id != ""
    ensures supplied.Some? && supplied.value != "" ==> id == supplied.value
    ensures (supplied.None? || supplied.value == "") ==> |id| == 32 && id[..8] == "session_"
  {
    if supplied.Some? && supplied.value != "" then supplied.value else NewSessionId(t, h)
  }

  /** Reusing the id a session was given reaches the same session, whatever the clock and the
      random source say on the second call. */
  lemma ReuseIsIdempotent(supplied: Option<string>, t: Timestamp, h: string, t': Timestamp, h': string)
    requires ValidTimestamp(t) && IsUuidHex(h) && ValidTimestamp(t') && IsUuidHex(h')
    ensures SessionId(Some(SessionId(supplied, t, h)), t', h') == SessionId(supplied, t, h)
  {
  }
}
