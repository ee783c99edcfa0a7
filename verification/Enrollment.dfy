/** The enrolment URL, the instance token's expiry, and what a session error means. */
module Enrollment {
  import opened Words

  // ---- `<base>/enroll/v1#token=ENROL-<nonce>` ----------------------------------------------

  /** What follows the first `#`. */
  function Fragment(url: string): Option<string> {
    if url == "" then None else if url[0] == '#' then Some(url[1..]) else Fragment(url[1..])
  }

  /** Up to the first `&`. */
  function Piece(frag: string): (p: string)
    ensures p <= frag && '&' !in p
    ensures |p| < |frag| ==> frag[|p|] == '&'
  {
    if frag == "" || frag[0] == '&' then "" else [frag[0]] + Piece(frag[1..])
  }

  const KEY: string := "token="

  /** The value of the first `token=` piece. */
  function FindToken(frag: string): Option<string>
    decreases |frag|
  {
    var p := Piece(frag);
    if KEY <= p then Some(p[|KEY|..])
    else if |p| == |frag| then None
    else FindToken(frag[|p| + 1..])
  }

  function ExtractToken(url: string): Option<string> {
    match Fragment(url)
    case None => None
    case Some(frag) => FindToken(frag)
  }

  /** `token=` stands at `i`, at the start of a piece. */
  predicate TokenAt(frag: string, i: nat) {
    i <= |frag| && KEY <= frag[i..] && (i == 0 || frag[i - 1] == '&')
  }

  predicate SomeTokenAt(frag: string) { exists i: nat | i <= |frag| :: TokenAt(frag, i) }

  /** A token is found exactly when some piece of the fragment starts with `token=`. */
  lemma {:induction false} FindTokenIff(frag: string)
    ensures FindToken(frag).Some? <==> SomeTokenAt(frag)
    decreases |frag|
  {
    if KEY <= Piece(frag) {
      FirstPiece(frag);
    } else if |Piece(frag)| == |frag| {
      OnePiece(frag);
    } else {
      var rest := NextPieces(frag);
      FindTokenIff(rest);
    }
  }

  lemma NextPieces(frag: string) returns (rest: string)
    requires !(KEY <= Piece(frag)) && |Piece(frag)| < |frag|
    ensures rest == frag[|Piece(frag)| + 1..] && FindToken(frag) == FindToken(rest)
    ensures SomeTokenAt(frag) <==> SomeTokenAt(rest)
  {
    PiecesIff(frag);
    rest := frag[|Piece(frag)| + 1..];
  }

  lemma FirstPiece(frag: string)
    requires KEY <= Piece(frag)
    ensures SomeTokenAt(frag)
  {
    assert frag[0..] == frag;
    assert TokenAt(frag, 0);
  }

  lemma OnePiece(frag: string)
    requires !(KEY <= Piece(frag)) && |Piece(frag)| == |frag|
    ensures !SomeTokenAt(frag)
  {
    assert frag[0..] == frag == Piece(frag);
    forall i: nat ensures !TokenAt(frag, i) {
      if 0 < i <= |frag| { assert frag[i - 1] in Piece(frag); }
    }
  }

  /** A token piece is the first one or among the rest. */
  lemma PiecesIff(frag: string)
    requires !(KEY <= Piece(frag)) && |Piece(frag)| < |frag|
    ensures SomeTokenAt(frag) <==> SomeTokenAt(frag[|Piece(frag)| + 1..])
  {
    var rest := frag[|Piece(frag)| + 1..];
    if i: nat :| i <= |frag| && TokenAt(frag, i) { TokenInRest(frag, i); }
    if j: nat :| j <= |rest| && TokenAt(rest, j) {
      TokenShift(frag, |Piece(frag)|, j);
      assert TokenAt(frag, |Piece(frag)| + 1 + j);
    }
  }

  lemma TokenInRest(frag: string, i: nat)
    requires !(KEY <= Piece(frag)) && |Piece(frag)| < |frag| && TokenAt(frag, i)
    ensures SomeTokenAt(frag[|Piece(frag)| + 1..])
  {
    var cut := |Piece(frag)|;
    NoEarlyToken(frag, i);
    TokenShift(frag, cut, i - cut - 1);
    assert TokenAt(frag[cut + 1..], i - cut - 1);
  }

  lemma TokenShift(frag: string, cut: nat, j: nat)
    requires cut < |frag| && frag[cut] == '&'
    ensures TokenAt(frag, cut + 1 + j) <==> TokenAt(frag[cut + 1..], j)
  {
    if cut + 1 + j <= |frag| {
      assert frag[cut + 1 + j..] == frag[cut + 1..][j..];
    }
  }

  lemma NoEarlyToken(frag: string, i: nat)
    requires TokenAt(frag, i) && !(KEY <= Piece(frag)) && |Piece(frag)| < |frag|
    ensures i > |Piece(frag)|
  {
    if i == 0 {
      assert frag[0..] == frag;
      KeyInPiece(frag);
    } else {
      PieceStops(frag, i - 1);
    }
  }

  lemma KeyInPiece(frag: string)
    requires KEY <= frag
    ensures KEY <= Piece(frag)
  {
    assert frag[..|KEY|] == KEY;
    PieceReaches(frag, |KEY|);
    assert Piece(frag)[..|KEY|] == frag[..|KEY|];
  }

  lemma {:induction false} PieceReaches(frag: string, k: nat)
    requires k <= |frag| && '&' !in frag[..k]
    ensures k <= |Piece(frag)|
  {
    if k > 0 {
      assert frag[..k][0] == frag[0];
      assert frag[1..][..k - 1] == frag[..k][1..];
      PieceReaches(frag[1..], k - 1);
    }
  }

  lemma {:induction false} PieceStops(frag: string, at: nat)
    requires at < |frag| && frag[at] == '&'
    ensures |Piece(frag)| <= at
  {
    if frag[0] != '&' { PieceStops(frag[1..], at - 1); }
  }

  /** Without a fragment there is no token. */
  lemma {:induction false} NoFragmentNoToken(url: string)
    requires '#' !in url
    ensures ExtractToken(url) == None
  {
    if url != "" { NoFragmentNoToken(url[1..]); }
  }

  /** The value `v` stands behind `token=` at `i`, up to the next `&` or the end. */
  ghost predicate ValueAt(frag: string, i: nat, v: string) {
    && TokenAt(frag, i) && i + 6 + |v| <= |frag| && frag[i + 6..i + 6 + |v|] == v && '&' !in v
    && (i + 6 + |v| < |frag| ==> frag[i + 6 + |v|] == '&')
  }

  /** What is found is the whole value of the first `token=` piece, and nothing more. */
  lemma {:induction false} FindTokenIs(frag: string) returns (i: nat)
    requires FindToken(frag).Some?
    ensures ValueAt(frag, i, FindToken(frag).value)
    ensures forall j: nat :: j < i ==> !TokenAt(frag, j)
    decreases |frag|
  {
    if KEY <= Piece(frag) {
      i := 0;
      FirstValue(frag);
    } else {
      var rest := NextPieces(frag);
      var j := FindTokenIs(rest);
      i := LaterValue(frag, rest, j, FindToken(frag).value);
    }
  }

  /** A value found behind the first piece, with its position in the whole. */
  lemma LaterValue(frag: string, rest: string, j: nat, v: string) returns (i: nat)
    requires !(KEY <= Piece(frag)) && |Piece(frag)| < |frag| && rest == frag[|Piece(frag)| + 1..]
    requires ValueAt(rest, j, v) && forall k: nat :: k < j ==> !TokenAt(rest, k)
    ensures ValueAt(frag, i, v) && forall k: nat :: k < i ==> !TokenAt(frag, k)
  {
    i := |Piece(frag)| + 1 + j;
    ValueShifts(frag, |Piece(frag)|, j, v);
    forall k: nat | k < i ensures !TokenAt(frag, k) { NoneBefore(frag, rest, k, j); }
  }

  lemma FirstValue(frag: string)
    requires KEY <= Piece(frag)
    ensures FindToken(frag) == Some(Piece(frag)[6..]) && ValueAt(frag, 0, Piece(frag)[6..])
  {
    var p := Piece(frag);
    assert frag[0..] == frag;
    assert p == frag[..|p|] && p[6..] == frag[6..|p|];
  }

  lemma NoneBefore(frag: string, rest: string, k: nat, j: nat)
    requires !(KEY <= Piece(frag)) && |Piece(frag)| < |frag| && rest == frag[|Piece(frag)| + 1..]
    requires k < |Piece(frag)| + 1 + j && forall i: nat :: i < j ==> !TokenAt(rest, i)
    ensures !TokenAt(frag, k)
  {
    if k > |Piece(frag)| {
      TokenShift(frag, |Piece(frag)|, k - |Piece(frag)| - 1);
    } else if TokenAt(frag, k) {
      NoEarlyToken(frag, k);
    }
  }

  lemma ValueShifts(frag: string, cut: nat, j: nat, v: string)
    requires cut < |frag| && frag[cut] == '&' && ValueAt(frag[cut + 1..], j, v)
    ensures ValueAt(frag, cut + 1 + j, v)
  {
    TokenShift(frag, cut, j);
    assert frag[cut + 1 + j + 6..cut + 1 + j + 6 + |v|] == frag[cut + 1..][j + 6..j + 6 + |v|];
  }

  lemma {:induction false} FragmentOf(base: string, frag: string)
    requires '#' !in base
    ensures Fragment(base + "#" + frag) == Some(frag)
  {
    var url := base + "#" + frag;
    if base == "" {
      assert url[1..] == frag;
    } else {
      FragmentOf(base[1..], frag);
      assert url[1..] == base[1..] + "#" + frag;
    }
  }

  lemma {:induction false} WholePiece(frag: string)
    requires '&' !in frag
    ensures Piece(frag) == frag
  {
    if frag != "" { WholePiece(frag[1..]); }
  }

  /** An enrolment URL of the documented shape yields its own token. */
  lemma ExtractRoundTrip(base: string, token: string)
    requires '#' !in base && '&' !in token
    ensures ExtractToken(base + "#" + ("token=" + token)) == Some(token)
  {
    FragmentOf(base, KEY + token);
    WholePiece(KEY + token);
  }

  // ---- Expiry ------------------------------------------------------------------------------

  /** An instance token; `exp` is what is read from its payload, if anything can be. */
  datatype Token = Token(text: string, exp: Option<int>)

  /** `i64::saturating_sub`. */
  function SatSub64(a: int, b: int): int {
    if a - b > 0x7FFF_FFFF_FFFF_FFFF then 0x7FFF_FFFF_FFFF_FFFF
    else if a - b < -0x8000_0000_0000_0000 then -0x8000_0000_0000_0000
    else a - b
  }

  /** `as i64` from a `u64`. */
  function AsI64(n: nat): int { if n < 0x8000_0000_0000_0000 then n else n - 0x1_0000_0000_0000_0000 }

  /** Whole seconds of the refresh window for a heartbeat interval in nanoseconds. */
  function RefreshWindow(heartbeat: nat): nat {
    Max(300 * 1_000_000_000, Min(3 * heartbeat, 0x1_0000_0000_0000_0000 * 1_000_000_000 - 1)) / 1_000_000_000
  }

  predicate ExpiresWithin(exp: Option<int>, now: int, window: nat) {
    match exp
    case None => true
    case Some(e) => SatSub64(e, now) <= AsI64(window)
  }

  /** The window is five minutes or three heartbeats (as far as a `Duration` goes), whichever is longer. */
  lemma WindowMeaning(heartbeat: nat)
    ensures var window := RefreshWindow(heartbeat);
            var three := Min(3 * heartbeat, 0x1_0000_0000_0000_0000 * 1_000_000_000 - 1);
            window >= 300 && window >= three / 1_000_000_000 && (window == 300 || window == three / 1_000_000_000)
  {
  }

  /** A token whose expiry cannot be read counts as expired. */
  lemma UnreadableExpires(now: int, window: nat)
    ensures ExpiresWithin(None, now, window)
  {
  }

  predicate IsI64(n: int) { -0x8000_0000_0000_0000 <= n < 0x8000_0000_0000_0000 }

  /** The check says whether the token outlives the window. */
  ghost predicate ChecksWindow(window: nat, e: int, now: int) {
    ExpiresWithin(Some(e), now, window) <==> e - now <= window
  }

  lemma CheckMeans(window: nat, e: int, now: int)
    requires window < 0x7FFF_FFFF_FFFF_FFFF
    ensures ChecksWindow(window, e, now)
  {
  }

  /**
   * The check means what it says, for every expiry and every time, exactly when the window is below
   * the largest signed 64-bit number of seconds. Beyond, a token that has just expired passes it.
   */
  lemma ExpiryMeaningIff(window: nat)
    requires window < 0x1_0000_0000_0000_0000
    ensures (forall e, now | IsI64(e) && IsI64(now) :: ChecksWindow(window, e, now))
       <==> window < 0x7FFF_FFFF_FFFF_FFFF
  {
    if window < 0x7FFF_FFFF_FFFF_FFFF {
      forall e, now | IsI64(e) && IsI64(now) ensures ChecksWindow(window, e, now) { CheckMeans(window, e, now); }
    } else if window == 0x7FFF_FFFF_FFFF_FFFF {
      assert !ChecksWindow(window, 0x7FFF_FFFF_FFFF_FFFF, -1);
    } else {
      assert !ChecksWindow(window, 0, 0);
    }
  }

  // ---- Session errors ----------------------------------------------------------------------

  datatype Code = Unauthenticated | PermissionDenied | AlreadyExists | OtherCode

  /** `retryAfter` is the slot header when it parses as milliseconds. */
  datatype Status = Status(code: Code, message: string, retryAfter: Option<nat>)

  datatype Cause = StatusCause(status: Status) | OtherCause

  /** An error is its chain of causes. */
  type Error = seq<Cause>

  function FirstStatus(err: Error): Option<Status> {
    if err == [] then None else if err[0].StatusCause? then Some(err[0].status) else FirstStatus(err[1..])
  }

  function Lower(c: char): char { if 'A' <= c <= 'Z' then c - 'A' + 'a' else c }

  function LowerAll(s: string): string { seq(|s|, i requires 0 <= i < |s| => Lower(s[i])) }

  predicate Contains(s: string, t: string) { t <= s || (s != "" && Contains(s[1..], t)) }

  predicate IsCredentialRejection(err: Error) {
    match FirstStatus(err)
    case None => false
    case Some(status) =>
      match status.code
      case Unauthenticated => true
      case PermissionDenied =>
        var message := LowerAll(status.message);
        Contains(message, "instance-token") || Contains(message, "instance token")
      case _ => false
  }

  /** The first gRPC status of the chain stands at `j`. */
  ghost predicate FirstStatusAt(err: Error, j: nat) {
    j < |err| && err[j].StatusCause? && forall k :: 0 <= k < j ==> !err[k].StatusCause?
  }

  /** The same letter, in either case. */
  predicate SameLetter(a: char, b: char) {
    a == b || ('A' <= a <= 'Z' && b as int == a as int + 32)
  }

  /** `word` stands at `i`, in whatever letter case. */
  ghost predicate WordAt(message: string, word: string, i: nat) {
    i + |word| <= |message| && forall k :: 0 <= k < |word| ==> SameLetter(message[i + k], word[k])
  }

  predicate NoCapitals(word: string) { forall k :: 0 <= k < |word| ==> !('A' <= word[k] <= 'Z') }

  ghost predicate Names(message: string, word: string) { exists i: nat :: WordAt(message, word, i) }

  ghost predicate NamesToken(message: string) { Names(message, "instance-token") || Names(message, "instance token") }

  lemma {:induction false} FirstStatusFound(err: Error)
    ensures FirstStatus(err).Some? <==> exists j: nat :: FirstStatusAt(err, j)
    ensures forall j: nat :: FirstStatusAt(err, j) ==> FirstStatus(err) == Some(err[j].status)
  {
    if err != [] && err[0].StatusCause? {
      assert FirstStatusAt(err, 0);
    } else if err != [] {
      var rest := err[1..];
      FirstStatusFound(rest);
      if j: nat :| FirstStatusAt(rest, j) {
        assert FirstStatusAt(err, j + 1);
      }
      forall j: nat | FirstStatusAt(err, j) ensures FirstStatus(err) == Some(err[j].status) {
        assert FirstStatusAt(rest, j - 1);
      }
    }
  }

  lemma {:induction false} ContainsIff(s: string, t: string)
    ensures Contains(s, t) <==> exists i: nat :: i <= |s| && t <= s[i..]
  {
    if t <= s {
      assert s[0..] == s;
    } else if s != "" {
      ContainsIff(s[1..], t);
      if i: nat :| i <= |s[1..]| && t <= s[1..][i..] {
        assert s[i + 1..] == s[1..][i..];
      }
      if i: nat :| i <= |s| && t <= s[i..] {
        assert s[0..] == s;
        assert s[1..][i - 1..] == s[i..];
      }
    } else {
      assert forall i: nat :: i <= |s| ==> s[i..] == s;
    }
  }

  lemma NamesIff(message: string, word: string)
    requires NoCapitals(word)
    ensures Contains(LowerAll(message), word) <==> Names(message, word)
  {
    var low := LowerAll(message);
    ContainsIff(low, word);
    forall i: nat ensures i <= |low| && word <= low[i..] <==> WordAt(message, word, i) {
      WordAtIff(message, word, i);
    }
  }

  lemma WordAtIff(message: string, word: string, i: nat)
    requires NoCapitals(word)
    ensures i <= |message| && word <= LowerAll(message)[i..] <==> WordAt(message, word, i)
  {
    if i + |word| <= |message| {
      assert forall k :: 0 <= k < |word| ==> LowerAll(message)[i..][k] == Lower(message[i + k]);
    }
  }

  /**
   * A credential rejection is, exactly, a chain whose first status is Unauthenticated, or is
   * PermissionDenied with a message that names the instance token in either spelling.
   */
  lemma RejectionIff(err: Error)
    ensures IsCredentialRejection(err) <==>
              exists j: nat :: FirstStatusAt(err, j) &&
                (|| err[j].status.code == Unauthenticated
                 || (err[j].status.code == PermissionDenied && NamesToken(err[j].status.message)))
  {
    FirstStatusFound(err);
    if j: nat :| FirstStatusAt(err, j) {
      NamesIff(err[j].status.message, "instance-token");
      NamesIff(err[j].status.message, "instance token");
    }
  }

  /** A later status is not looked at, whatever it says: another first status settles the matter. */
  lemma LaterStatusIgnored(first: Status, rest: Error)
    requires first.code == OtherCode || first.code == AlreadyExists
    ensures !IsCredentialRejection([StatusCause(first)] + rest)
    ensures var rejecting := [StatusCause(Status(Unauthenticated, "", None))];
            IsCredentialRejection(rejecting) && !IsCredentialRejection([StatusCause(first)] + rejecting)
  {
  }

  const MAX_SLOT_RETRY: nat := 125_000
  const SLOT_RETRY_MARGIN: nat := 250

  /** Milliseconds until a held slot is tried again. */
  function SlotRetryIn(err: Error): Option<nat> {
    match FirstStatus(err)
    case None => None
    case Some(status) =>
      if status.code != AlreadyExists then None
      else match status.retryAfter
        case None => Some(MAX_SLOT_RETRY)
        case Some(ms) => Some(Min(ms + SLOT_RETRY_MARGIN, MAX_SLOT_RETRY))
  }

  /** A slot wait is at most 125 s, at least the time named up to that, and never a rejection. */
  lemma SlotWait(err: Error)
    requires SlotRetryIn(err).Some?
    ensures SLOT_RETRY_MARGIN <= SlotRetryIn(err).value <= MAX_SLOT_RETRY && !IsCredentialRejection(err)
    ensures FirstStatus(err).value.retryAfter.Some? ==>
              SlotRetryIn(err).value > Min(FirstStatus(err).value.retryAfter.value, MAX_SLOT_RETRY - 1)
  {
  }

  /** It is 250 ms past the time named, or 125 s where that is longer or none is named; and only for a held slot. */
  lemma SlotWaitIs(err: Error)
    ensures SlotRetryIn(err).Some? <==> FirstStatus(err).Some? && FirstStatus(err).value.code == AlreadyExists
    ensures SlotRetryIn(err).Some? && FirstStatus(err).value.retryAfter.None? ==> SlotRetryIn(err).value == 125_000
    ensures SlotRetryIn(err).Some? && FirstStatus(err).value.retryAfter.Some? ==>
              var named := FirstStatus(err).value.retryAfter.value;
              SlotRetryIn(err).value == if named <= 124_750 then named + 250 else 125_000
  {
  }

  /** What the run loop makes of a session error. */
  datatype Failure = CredentialsRejected | SlotHeld(ms: nat) | OtherFailure

  function Classify(err: Error): Failure {
    if IsCredentialRejection(err) then CredentialsRejected
    else match SlotRetryIn(err)
      case Some(ms) => SlotHeld(ms)
      case None => OtherFailure
  }

  /** A rejection, a held slot with its wait, or neither. */
  lemma ClassifyIff(err: Error)
    ensures Classify(err).CredentialsRejected? <==> IsCredentialRejection(err)
    ensures Classify(err).SlotHeld? <==> FirstStatus(err).Some? && FirstStatus(err).value.code == AlreadyExists
    ensures Classify(err).SlotHeld? ==> SlotRetryIn(err) == Some(Classify(err).ms)
  {
  }

  /** An error with no status in its chain, such as a failed connect, is neither a rejection nor a held slot. */
  lemma StatuslessIsOther(err: Error)
    requires FirstStatus(err).None?
    ensures Classify(err) == OtherFailure
  {
  }
}
