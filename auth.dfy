/** The lock screen's PAM helper: it reads a password from stdin, runs the
    "login" PAM stack for the user named on the command line and reports the
    outcome as a process exit code. The PAM library is not modelled: the
    results of `pam_start`, `pam_authenticate` and `pam_acct_mgmt` are inputs. */
module LockscreenAuth {
  import opened Wrappers

  /** `PASS_MAX`: the size of the password buffer, terminator included. */
  const PassMax: nat := 512
  /** `sizeof(pam_msg_buffer)` */
  const MsgBufferSize: nat := 1024

  /** The Linux-PAM return codes the helper tells apart; every other code is
      `OtherError`, whose `code` is never one of the named ones (so each status
      has one representation). */
  datatype PamStatus =
    | Success
    | PermDenied
    | AuthErr
    | UserUnknown
    | NewAuthtokReqd
    | AcctExpired
    | ConvErr
    | OtherError(code: int)

  /** The PAM calls `main` makes, in order; `End` carries the status handed to
      `pam_end`. */
  datatype PamCall = Start | Authenticate | AcctMgmt | End(status: PamStatus)

  /** What a run of `main` amounts to: its exit code and the PAM calls it made. */
  datatype Verdict = Verdict(exit: int, calls: seq<PamCall>)

  /** Every exit code `main` can return. */
  predicate IsExitCode(e: int) {
    e in {0, 10, 11, 12, 20, 21, 22, 23, 30, 100, 101, 102, 103, 104}
  }

  // ---------------------------------------------------------------------------
  // C strings

  /** `strlen`: the index of the first NUL, or the length when there is none. */
  function CLen(s: seq<char>): (n: nat)
    ensures n <= |s|
    ensures forall i :: 0 <= i < n ==> s[i] != '\0'
    ensures n < |s| ==> s[n] == '\0'
  {
    if s == [] || s[0] == '\0' then 0 else 1 + CLen(s[1..])
  }

  /** The C string a NUL-terminated buffer holds. */
  function CString(s: seq<char>): (r: string)
    ensures '\0' !in r && |r| <= |s| && r == s[..|r|]
  {
    s[..CLen(s)]
  }

  // ---------------------------------------------------------------------------
  // Reading the password

  /** `fgets(buf, PASS_MAX, stdin)` on what stdin holds (`None`: a read error):
      NULL at end of file or on error, otherwise the characters up to and
      including the first newline, at most `PassMax - 1` of them. */
  function Fgets(stdin: Option<string>): (line: Option<string>)
    ensures line.Some? ==> stdin.Some? && 0 < |line.value| <= PassMax - 1
    ensures line.Some? ==> |line.value| <= |stdin.value| && line.value == stdin.value[..|line.value|]
    ensures line.Some? ==> forall i :: 0 <= i < |line.value| - 1 ==> line.value[i] != '\n'
    ensures line.None? <==> stdin.None? || stdin.value == []
    ensures line.Some? ==>
      var nl := NewlineOrNul(stdin.value, false);
      |line.value| == Min(if nl < |stdin.value| then nl + 1 else |stdin.value|, PassMax - 1)
  {
    match stdin
    case None => None
    case Some(s) =>
      if s == [] then None
      else
        var nl := NewlineOrNul(s, false);
        var n := if nl < |s| then nl + 1 else |s|;
        Some(s[..if n < PassMax - 1 then n else PassMax - 1])
  }

  /** The index of the first `'\n'` (or, when `stopAtNul`, the first `'\n'` or
      NUL) in `s`, or `|s|` when there is none. */
  function NewlineOrNul(s: string, stopAtNul: bool): (n: nat)
    ensures n <= |s|
    ensures forall i :: 0 <= i < n ==> s[i] != '\n' && (stopAtNul ==> s[i] != '\0')
    ensures n < |s| ==> s[n] == '\n' || (stopAtNul && s[n] == '\0')
  {
    if s == [] || s[0] == '\n' || (stopAtNul && s[0] == '\0') then 0
    else 1 + NewlineOrNul(s[1..], stopAtNul)
  }

  /** `password[strcspn(password, "\n")] = '\0'` seen as a C string: the line
      read, cut at its first newline (or at a NUL read from the input, where the
      C string ends anyway). */
  function StripNewline(line: string): string {
    line[..NewlineOrNul(line, true)]
  }

  /** The password handed to PAM is a prefix of the line read, holds neither a
      newline nor a NUL, fits the buffer with its terminator, and loses nothing
      but the newline and what follows it. */
  lemma PasswordShape(stdin: Option<string>)
    requires Fgets(stdin).Some?
    ensures var line := Fgets(stdin).value; var p := StripNewline(line);
      && p == line[..|p|]
      && '\n' !in p && '\0' !in p
      && |p| <= PassMax - 1
      && ('\0' !in line ==> p == line || p + "\n" == line)
  {
    var line := Fgets(stdin).value;
    var p := StripNewline(line);
    if '\0' !in line && p != line {
      assert line[|p|] == '\n';
      assert |p| == |line| - 1;
      assert p + "\n" == line;
    }
  }

  // ---------------------------------------------------------------------------
  // The exit-code ladder of main

  /** The decision `main` makes, from the argument count, the result of `poll`,
      the line `fgets` returned and the three PAM results. */
  function Decide(argc: int, pollResult: int, line: Option<string>,
                  start: PamStatus, auth: PamStatus, acct: PamStatus): (v: Verdict)
    ensures IsExitCode(v.exit)
    ensures v.calls == [] <==> v.exit in {100, 101, 103, 104}
    ensures v.calls != [] ==> v.calls[0] == Start
  {
    if argc != 2 then Verdict(100, [])
    else if pollResult == 0 then Verdict(103, [])
    else if pollResult < 0 then Verdict(104, [])
    else if line.None? then Verdict(101, [])
    else PamVerdict(start, auth, acct)
  }

  /** The part of the decision made after the password was read: the PAM
      calls in order and the exit code. */
  function PamVerdict(start: PamStatus, auth: PamStatus, acct: PamStatus): (v: Verdict)
    ensures IsExitCode(v.exit) && v.exit !in {100, 101, 103, 104}
    ensures v.calls != [] && v.calls[0] == Start
  {
    if start != Success then Verdict(102, [Start])
    else if auth == UserUnknown then Verdict(10, [Start, Authenticate, End(auth)])
    else if auth != AuthErr && auth != Success then Verdict(12, [Start, Authenticate, End(auth)])
    else
      var checked := [Start, Authenticate, AcctMgmt];
      if auth == Success && acct == PermDenied then Verdict(30, checked + [End(acct)])
      else if auth == AuthErr && acct != PermDenied then Verdict(11, checked + [End(auth)])
      else if acct == PermDenied then Verdict(22, checked + [End(acct)])
      else if acct == AcctExpired then Verdict(20, checked + [End(acct)])
      else if acct == NewAuthtokReqd then Verdict(21, checked + [End(acct)])
      else if acct != Success then Verdict(23, checked + [End(acct)])
      else Verdict(0, checked + [End(Success)])
  }

  /** The meaning of each authentication exit code as a table over the two PAM
      results, written independently of the order of the tests in `main`. */
  function AuthExitTable(auth: PamStatus, acct: PamStatus): int {
    match auth
    case UserUnknown => 10
    case Success =>
      (match acct
       case Success => 0
       case PermDenied => 30           // faillock: right password, account locked
       case AcctExpired => 20
       case NewAuthtokReqd => 21
       case _ => 23)
    case AuthErr => if acct == PermDenied then 22 else 11
    case _ => 12
  }

  /** Once stdin yielded a line and PAM started, the exit code is the table's. */
  lemma DecideMatchesTable(pollResult: int, line: string, auth: PamStatus, acct: PamStatus)
    requires pollResult > 0
    ensures Decide(2, pollResult, Some(line), Success, auth, acct).exit == AuthExitTable(auth, acct)
  {
  }

  /** A wrong argument count exits 100 before anything else happens. */
  lemma WrongArgCount(argc: int, pollResult: int, line: Option<string>,
                      start: PamStatus, auth: PamStatus, acct: PamStatus)
    requires argc != 2
    ensures Decide(argc, pollResult, line, start, auth, acct) == Verdict(100, [])
  {
  }

  /** Failures while reading stdin: a poll timeout exits 103, a poll error 104 and
      a failed read 101, all before PAM is started. */
  lemma StdinFailures(pollResult: int, line: Option<string>,
                      start: PamStatus, auth: PamStatus, acct: PamStatus)
    ensures pollResult == 0 ==> Decide(2, pollResult, line, start, auth, acct) == Verdict(103, [])
    ensures pollResult < 0 ==> Decide(2, pollResult, line, start, auth, acct) == Verdict(104, [])
    ensures pollResult > 0 && line.None? ==> Decide(2, pollResult, line, start, auth, acct) == Verdict(101, [])
  {
  }

  /** A failed `pam_start` exits 102 without any further PAM call. */
  lemma StartFailure(pollResult: int, line: string, start: PamStatus, auth: PamStatus, acct: PamStatus)
    requires pollResult > 0 && start != Success
    ensures Decide(2, pollResult, Some(line), start, auth, acct) == Verdict(102, [Start])
  {
  }

  /** An unknown user exits 10, and any authentication result other than success
      or a wrong password exits 12; neither consults account management. */
  lemma AuthFailuresSkipAccount(pollResult: int, line: string, auth: PamStatus, acct: PamStatus)
    requires pollResult > 0 && auth != Success && auth != AuthErr
    ensures var v := Decide(2, pollResult, Some(line), Success, auth, acct);
      && v.exit == (if auth == UserUnknown then 10 else 12)
      && v.calls == [Start, Authenticate, End(auth)]
  {
  }

  /** Faillock: the right password but a denied account exits 30. A wrong password
      exits 11 unless the account is denied too, which exits 22. */
  lemma PermissionOutcomes(pollResult: int, line: string, auth: PamStatus, acct: PamStatus)
    requires pollResult > 0
    ensures auth == Success && acct == PermDenied ==> Decide(2, pollResult, Some(line), Success, auth, acct).exit == 30
    ensures auth == AuthErr && acct != PermDenied ==> Decide(2, pollResult, Some(line), Success, auth, acct).exit == 11
    ensures auth == AuthErr && acct == PermDenied ==> Decide(2, pollResult, Some(line), Success, auth, acct).exit == 22
  {
  }

  /** With the right password, an expired account exits 20, a required password
      change 21 and any other account failure 23. */
  lemma AccountOutcomes(pollResult: int, line: string, acct: PamStatus)
    requires pollResult > 0 && acct != Success && acct != PermDenied
    ensures Decide(2, pollResult, Some(line), Success, Success, acct).exit ==
      (if acct == AcctExpired then 20 else if acct == NewAuthtokReqd then 21 else 23)
  {
  }

  /** The helper exits 0 exactly when both PAM stages succeed. */
  lemma ExitZeroIff(argc: int, pollResult: int, line: Option<string>,
                    start: PamStatus, auth: PamStatus, acct: PamStatus)
    ensures Decide(argc, pollResult, line, start, auth, acct).exit == 0 <==>
      argc == 2 && pollResult > 0 && line.Some? && start == Success && auth == Success && acct == Success
  {
  }

  /** Once `pam_start` succeeded, `pam_end` is the last call and is made exactly
      once; account management is consulted exactly when authentication
      succeeded or rejected the password. */
  lemma PamEndOnce(argc: int, pollResult: int, line: Option<string>,
                   start: PamStatus, auth: PamStatus, acct: PamStatus)
    ensures var v := Decide(argc, pollResult, line, start, auth, acct);
      && (v.calls != [] && v.exit != 102 ==>
            v.calls[|v.calls| - 1].End? && forall i :: 0 <= i < |v.calls| - 1 ==> !v.calls[i].End?)
      && (v.exit == 102 ==> v.calls == [Start])
      && (AcctMgmt in v.calls <==> v.calls != [] && v.exit != 102 && (auth == Success || auth == AuthErr))
  {
  }

  // ---------------------------------------------------------------------------
  // Zeroing and the password buffer

  /** `secure_bzero(p, n)`: the first `n` bytes become zero, the rest stay. */
  method SecureBzero(p: array<char>, n: nat)
    requires n <= p.Length
    modifies p
    ensures forall i :: 0 <= i < n ==> p[i] == '\0'
    ensures forall i :: n <= i < p.Length ==> p[i] == old(p[i])
  {
    var k := 0;
    while k < n
      invariant 0 <= k <= n
      invariant forall i :: 0 <= i < k ==> p[i] == '\0'
      invariant forall i :: k <= i < p.Length ==> p[i] == old(p[i])
    {
      p[k] := '\0';
      k := k + 1;
    }
  }

  /** The buffer after `fgets` stored `line` into a zeroed `password`: the line,
      its terminator, and zeros after it. */
  method StoreLine(password: array<char>, line: string)
    requires password.Length == PassMax && 0 < |line| < PassMax
    requires forall i :: 0 <= i < PassMax ==> password[i] == '\0'
    modifies password
    ensures password[..|line|] == line
    ensures forall i :: |line| <= i < PassMax ==> password[i] == '\0'
  {
    var k := 0;
    while k < |line|
      invariant 0 <= k <= |line|
      invariant password[..k] == line[..k]
      invariant forall i :: k <= i < PassMax ==> password[i] == '\0'
    {
      password[k] := line[k];
      k := k + 1;
    }
  }

  /** `password[strcspn(password, "\n")] = '\0'` on the buffer `StoreLine` left;
      returns the length of the password that is left. */
  method CutAtNewline(password: array<char>, ghost line: string) returns (k: nat)
    requires password.Length == PassMax && 0 < |line| < PassMax
    requires password[..|line|] == line
    requires forall i :: |line| <= i < PassMax ==> password[i] == '\0'
    modifies password
    ensures k == |StripNewline(line)|
    ensures password[..k] == StripNewline(line) && password[k] == '\0'
    ensures CString(password[..]) == StripNewline(line)
    ensures forall j :: k < j < PassMax ==> password[j] == old(password[j])
  {
    k := 0;
    while password[k] != '\n' && password[k] != '\0'
      invariant 0 <= k <= |line|
      invariant forall i :: 0 <= i < k ==> line[i] != '\n' && line[i] != '\0'
      decreases |line| - k
    {
      assert password[k] == line[k] by { assert k < |line|; assert password[..|line|][k] == line[k]; }
      k := k + 1;
    }
    assert k < |line| ==> password[..|line|][k] == line[k];
    password[k] := '\0';
    assert password[..k] == line[..k];
    CLenAt(password[..], k);
  }

  // ---------------------------------------------------------------------------
  // The captured PAM messages

  /** The text `append_pam_msg` leaves when it appends `msg` (`None`: a NULL
      pointer) to a buffer holding `cur`: as much of the message as still fits
      before the terminator of a `MsgBufferSize`-byte buffer. */
  function Appended(cur: string, msg: Option<string>): (r: string)
    ensures msg.None? ==> r == cur
    ensures |cur| <= |r| && r[..|cur|] == cur
    ensures |cur| <= MsgBufferSize - 1 ==> |r| <= MsgBufferSize - 1
    ensures msg.Some? && |cur| <= MsgBufferSize - 1 ==>
      |r| == Min(|cur| + |CString(msg.value)|, MsgBufferSize - 1)
    ensures msg.Some? && |cur| + |CString(msg.value)| <= MsgBufferSize - 1 ==>
      r == cur + CString(msg.value)
    ensures msg.Some? && |cur| <= MsgBufferSize - 1 ==>
      r == cur + CString(msg.value)[..|r| - |cur|]
  {
    match msg
    case None => cur
    case Some(m) =>
      var room := if |cur| < MsgBufferSize - 1 then MsgBufferSize - 1 - |cur| else 0;
      var text := CString(m);
      cur + text[..Min(|text|, room)]
  }

  function Min(a: nat, b: nat): nat {
    if a <= b then a else b
  }

  /** The static `pam_msg_buffer`: a 1024-byte buffer holding a C string. */
  class PamMessageBuffer {
    var data: array<char>

    ghost predicate Valid()
      reads this, data
    {
      data.Length == MsgBufferSize && CLen(data[..]) < MsgBufferSize
    }

    /** The text captured so far. */
    function Contents(): string
      reads this, data
    {
      CString(data[..])
    }

    /** Static storage starts zeroed. */
    constructor ()
      ensures Valid() && fresh(data) && Contents() == []
    {
      data := new char[MsgBufferSize](_ => '\0');
    }

    /** `memset(pam_msg_buffer, 0, sizeof(pam_msg_buffer))` */
    method Clear()
      requires Valid()
      modifies data
      ensures Valid() && Contents() == []
    {
      SecureBzero(data, data.Length);
    }

    /** `append_pam_msg(msg)`: `strncat` of at most the space left. */
    method Append(msg: Option<string>)
      requires Valid()
      modifies data
      ensures Valid()
      ensures Contents() == Appended(old(Contents()), msg)
      ensures |Contents()| <= MsgBufferSize - 1
    {
      if msg.None? {
        return;
      }
      ghost var before := Contents();
      var cur := CLen(data[..]);
      var remaining := MsgBufferSize - cur - 1;
      if remaining > 0 {
        var i := Strncat(data, cur, msg.value, remaining);
        assert data[..cur + i] == before + CString(msg.value)[..i] by {
          assert data[..cur + i] == data[..cur] + data[cur..cur + i];
        }
        CLenAt(data[..], cur + i);
      }
    }
  }

  /** `strncat(dst, src, n)` onto the C string of length `cur` in `dst`: copies
      at most `n` characters of `src`'s C string and terminates the result.
      Returns the number of characters copied. */
  method Strncat(dst: array<char>, cur: nat, src: string, n: nat) returns (i: nat)
    requires cur + n < dst.Length
    modifies dst
    ensures i == Min(|CString(src)|, n)
    ensures dst[..cur] == old(dst[..cur])
    ensures dst[cur..cur + i] == CString(src)[..i]
    ensures dst[cur + i] == '\0'
    ensures forall j :: cur + i < j < dst.Length ==> dst[j] == old(dst[j])
  {
    i := 0;
    while i < n && i < |src| && src[i] != '\0'
      invariant 0 <= i <= n && i <= |src|
      invariant forall j :: 0 <= j < i ==> src[j] != '\0'
      invariant dst[..cur] == old(dst[..cur])
      invariant dst[cur..cur + i] == src[..i]
      invariant forall j :: cur + i <= j < dst.Length ==> dst[j] == old(dst[j])
    {
      dst[cur + i] := src[i];
      i := i + 1;
    }
    dst[cur + i] := '\0';
    assert CLen(src) >= i;
    assert src[..i] == CString(src)[..i];
  }

  /** A buffer whose first NUL is at `k` holds a C string of length `k`. */
  lemma CLenAt(s: seq<char>, k: nat)
    requires k < |s| && s[k] == '\0' && '\0' !in s[..k]
    ensures CLen(s) == k
  {
    assert forall j :: 0 <= j < k ==> s[j] == s[..k][j];
  }

  // ---------------------------------------------------------------------------
  // The PAM conversation

  datatype MsgStyle = PromptEchoOff | PromptEchoOn | ErrorMsg | TextInfo | OtherStyle(code: int)

  /** One `struct pam_message`; `text` is `None` for a NULL `msg` pointer. */
  datatype PamMessage = PamMessage(style: MsgStyle, text: Option<string>)

  predicate KnownStyle(s: MsgStyle) {
    !s.OtherStyle?
  }

  /** The reply `conv_func` gives one message of a known style: a copy of the
      password for a prompt, NULL otherwise. */
  function ReplyTo(m: PamMessage, password: string): Option<string> {
    if m.style == PromptEchoOff || m.style == PromptEchoOn then Some(CString(password)) else None
  }

  /** The number of messages before the first one of unknown style. */
  function KnownPrefix(msgs: seq<PamMessage>): (n: nat)
    ensures n <= |msgs|
    ensures forall i :: 0 <= i < n ==> KnownStyle(msgs[i].style)
    ensures n < |msgs| ==> !KnownStyle(msgs[n].style)
  {
    if msgs == [] || !KnownStyle(msgs[0].style) then 0 else 1 + KnownPrefix(msgs[1..])
  }

  /** The replies `conv_func` hands back for one call: a reply per message when
      every message has a known style, no reply array at all otherwise. */
  function Answers(msgs: seq<PamMessage>, password: string): (r: Option<seq<Option<string>>>)
    ensures r.Some? <==> forall i :: 0 <= i < |msgs| ==> KnownStyle(msgs[i].style)
    ensures r.Some? ==> |r.value| == |msgs|
    ensures r.Some? ==> forall i :: 0 <= i < |msgs| ==> r.value[i] == ReplyTo(msgs[i], password)
  {
    if KnownPrefix(msgs) < |msgs| then None
    else Some(seq(|msgs|, i requires 0 <= i < |msgs| => ReplyTo(msgs[i], password)))
  }

  lemma NoAnswers(msgs: seq<PamMessage>, password: string)
    requires KnownPrefix(msgs) < |msgs|
    ensures Answers(msgs, password) == None
  {
  }

  lemma AllAnswered(msgs: seq<PamMessage>, password: string, replies: seq<Option<string>>)
    requires KnownPrefix(msgs) == |msgs| && |replies| == |msgs|
    requires forall i :: 0 <= i < |msgs| ==> replies[i] == ReplyTo(msgs[i], password)
    ensures Answers(msgs, password) == Some(replies)
  {
    assert replies == Answers(msgs, password).value;
  }

  /** For a password holding no NUL, such as the line read cut at its newline,
      every prompt is answered with the password itself and every other
      message with NULL. */
  lemma AnswersArePassword(msgs: seq<PamMessage>, password: string, i: nat)
    requires '\0' !in password
    requires Answers(msgs, password).Some? && i < |msgs|
    ensures msgs[i].style == PromptEchoOff || msgs[i].style == PromptEchoOn ==>
      Answers(msgs, password).value[i] == Some(password)
    ensures msgs[i].style == ErrorMsg || msgs[i].style == TextInfo ==>
      Answers(msgs, password).value[i] == None
  {
    assert CLen(password) == |password|;
    assert CString(password) == password[..|password|] == password;
    assert ReplyTo(msgs[i], password) == Answers(msgs, password).value[i];
  }

  /** The captured text after error and info messages `msgs` were appended, in
      order, to `cur`. */
  function Logged(cur: string, msgs: seq<PamMessage>): string {
    if msgs == [] then cur
    else
      var last := msgs[|msgs| - 1];
      var prev := Logged(cur, msgs[..|msgs| - 1]);
      if last.style == ErrorMsg || last.style == TextInfo then Appended(prev, last.text) else prev
  }

  /** The captured text only grows, keeps what was there and stays within the
      buffer. */
  lemma {:induction false} LoggedGrows(cur: string, msgs: seq<PamMessage>)
    requires |cur| <= MsgBufferSize - 1
    ensures var r := Logged(cur, msgs); |cur| <= |r| <= MsgBufferSize - 1 && r[..|cur|] == cur
  {
    if msgs != [] {
      var prev := Logged(cur, msgs[..|msgs| - 1]);
      LoggedGrows(cur, msgs[..|msgs| - 1]);
      var r := Logged(cur, msgs);
      assert r[..|prev|] == prev;
      assert r[..|cur|] == prev[..|cur|];
    }
  }

  /** The texts of the error and info messages, in order. */
  function Notices(msgs: seq<PamMessage>): string {
    if msgs == [] then []
    else
      var last := msgs[|msgs| - 1];
      Notices(msgs[..|msgs| - 1]) +
        (if (last.style == ErrorMsg || last.style == TextInfo) && last.text.Some?
         then CString(last.text.value) else [])
  }

  /** When everything fits, the captured text is the old text followed by every
      error and info message, in message order. */
  lemma {:induction false} LoggedInOrder(cur: string, msgs: seq<PamMessage>)
    requires |cur| + |Notices(msgs)| <= MsgBufferSize - 1
    ensures Logged(cur, msgs) == cur + Notices(msgs)
  {
    if msgs != [] {
      var init := msgs[..|msgs| - 1];
      LoggedInOrder(cur, init);
      assert Logged(cur, msgs) == cur + Notices(msgs);
    }
  }

  /** The `switch` of `conv_func` for message `i`, of a known style: the
      reply goes to `reply[i]`. */
  method Answer(m: PamMessage, password: string, buffer: PamMessageBuffer,
                reply: array<Option<string>>, i: nat)
    requires buffer.Valid() && KnownStyle(m.style) && i < reply.Length
    modifies buffer.data, reply
    ensures buffer.Valid()
    ensures reply[..] == old(reply[..])[i := ReplyTo(m, password)]
    ensures buffer.Contents() ==
      if m.style == ErrorMsg || m.style == TextInfo then Appended(old(buffer.Contents()), m.text)
      else old(buffer.Contents())
  {
    match m.style {
      case PromptEchoOff =>
        reply[i] := Some(CString(password));
      case PromptEchoOn =>
        reply[i] := Some(CString(password));
      case ErrorMsg =>
        buffer.Append(m.text);
        reply[i] := None;
      case TextInfo =>
        buffer.Append(m.text);
        reply[i] := None;
    }
  }

  /** `conv_func`: one reply per message, prompts answered with the password,
      error and info messages appended to the captured text; an unknown style
      fails the whole conversation with `PAM_CONV_ERR` and no reply, though
      what was appended before it stays. */
  method Conv(msgs: seq<PamMessage>, password: string, buffer: PamMessageBuffer)
    returns (status: PamStatus, resp: Option<seq<Option<string>>>)
    requires buffer.Valid()
    modifies buffer.data
    ensures buffer.Valid()
    ensures status == Success || status == ConvErr
    ensures status == Success <==> KnownPrefix(msgs) == |msgs|
    ensures status == ConvErr ==> resp == None
    ensures status == Success ==> resp.Some? && |resp.value| == |msgs|
    ensures status == Success ==> forall i :: 0 <= i < |msgs| ==> resp.value[i] == ReplyTo(msgs[i], password)
    ensures buffer.Contents() == Logged(old(buffer.Contents()), msgs[..KnownPrefix(msgs)])
    ensures resp == Answers(msgs, password)
  {
    var reply := new Option<string>[|msgs|](_ => None);
    var i := 0;
    while i < |msgs|
      invariant 0 <= i <= |msgs| && i <= KnownPrefix(msgs)
      invariant buffer.Valid()
      invariant forall j :: 0 <= j < i ==> reply[j] == ReplyTo(msgs[j], password)
      invariant buffer.Contents() == Logged(old(buffer.Contents()), msgs[..i])
    {
      assert msgs[..i + 1][..i] == msgs[..i];
      if !KnownStyle(msgs[i].style) {
        assert KnownPrefix(msgs) == i;
        NoAnswers(msgs, password);
        status, resp := ConvErr, None;
        return;
      }
      assert i < KnownPrefix(msgs);
      Answer(msgs[i], password, buffer, reply, i);
      i := i + 1;
    }
    assert KnownPrefix(msgs) == |msgs| && msgs[..|msgs|] == msgs;
    AllAnswered(msgs, password, reply[..]);
    status, resp := Success, Some(reply[..]);
  }

  /** The captured text after `conv_func` ran on each batch of `batches` in
      turn: every batch logs its messages before its first one of unknown
      style. */
  function ConvLog(cur: string, batches: seq<seq<PamMessage>>): string {
    if batches == [] then cur
    else
      var last := batches[|batches| - 1];
      Logged(ConvLog(cur, batches[..|batches| - 1]), last[..KnownPrefix(last)])
  }

  /** However many conversations run, the captured text only grows, keeps what
      it held and stays within the buffer. */
  lemma {:induction false} ConvLogGrows(cur: string, batches: seq<seq<PamMessage>>)
    requires |cur| <= MsgBufferSize - 1
    ensures var r := ConvLog(cur, batches); |cur| <= |r| <= MsgBufferSize - 1 && r[..|cur|] == cur
  {
    if batches != [] {
      var init := batches[..|batches| - 1];
      var last := batches[|batches| - 1];
      ConvLogGrows(cur, init);
      var mid := ConvLog(cur, init);
      LoggedGrows(mid, last[..KnownPrefix(last)]);
      var r := ConvLog(cur, batches);
      assert r[..|mid|] == mid;
      assert r[..|cur|] == r[..|mid|][..|cur|];
    }
  }

  /** The conversations the PAM stack holds during one library call, each a
      call of `conv_func` on one batch of messages. */
  method Converse(batches: seq<seq<PamMessage>>, password: string, buffer: PamMessageBuffer)
    returns (replies: seq<Option<seq<Option<string>>>>)
    requires buffer.Valid()
    modifies buffer.data
    ensures buffer.Valid()
    ensures buffer.Contents() == ConvLog(old(buffer.Contents()), batches)
    ensures replies == ConvReplies(batches, password)
  {
    replies := [];
    var i := 0;
    while i < |batches|
      invariant 0 <= i <= |batches|
      invariant buffer.Valid()
      invariant buffer.Contents() == ConvLog(old(buffer.Contents()), batches[..i])
      invariant |replies| == i
      invariant forall k :: 0 <= k < i ==> replies[k] == Answers(batches[k], password)
    {
      var _, resp := Conv(batches[i], password, buffer);
      ConvLogStep(old(buffer.Contents()), batches, i);
      replies := replies + [resp];
      i := i + 1;
    }
    assert batches[..|batches|] == batches;
  }

  /** One more call of `conv_func` logs its batch after the earlier ones. */
  lemma ConvLogStep(cur: string, batches: seq<seq<PamMessage>>, i: nat)
    requires i < |batches|
    ensures ConvLog(cur, batches[..i + 1]) ==
      Logged(ConvLog(cur, batches[..i]), batches[i][..KnownPrefix(batches[i])])
  {
    assert batches[..i + 1][..i] == batches[..i];
  }

  /** The replies of the conversations on `batches`, one entry per call of
      `conv_func`, in order. */
  function ConvReplies(batches: seq<seq<PamMessage>>, password: string): (r: seq<Option<seq<Option<string>>>>)
    ensures |r| == |batches|
    ensures forall k :: 0 <= k < |batches| ==> r[k] == Answers(batches[k], password)
  {
    seq(|batches|, k requires 0 <= k < |batches| => Answers(batches[k], password))
  }

  /** The text captured from `pam_start` on, starting from `cur`: the
      conversations of `pam_authenticate` once the handle exists, then those of
      `pam_acct_mgmt` when authentication succeeded or rejected the password. */
  function Captured(cur: string, start: PamStatus, auth: PamStatus,
                    authConv: seq<seq<PamMessage>>, acctConv: seq<seq<PamMessage>>): string {
    if start != Success then cur
    else
      var a := ConvLog(cur, authConv);
      if auth == Success || auth == AuthErr then ConvLog(a, acctConv) else a
  }

  /** What the helper captures stays within the buffer, and what
      authentication logged comes before what account management logged. */
  lemma CapturedInOrder(start: PamStatus, auth: PamStatus,
                        authConv: seq<seq<PamMessage>>, acctConv: seq<seq<PamMessage>>)
    ensures |Captured([], start, auth, authConv, acctConv)| <= MsgBufferSize - 1
    ensures start == Success ==>
      var a := ConvLog([], authConv); var r := Captured([], start, auth, authConv, acctConv);
      |a| <= |r| && r[..|a|] == a
  {
    ConvLogGrows([], authConv);
    var a := ConvLog([], authConv);
    ConvLogGrows(a, acctConv);
  }

  // ---------------------------------------------------------------------------
  // main

  /** `main(argc, argv)` with stdin's contents (`None`: a read error), the
      result of `poll` and the PAM results as inputs. `password` is the stack
      buffer `data.password`, `messages` the static message buffer. Returns the
      exit code, the PAM calls made and the password the conversation would hand
      to PAM. `authConv` and `acctConv` are the batches of messages the PAM
      stack hands `conv_func` during `pam_authenticate` and `pam_acct_mgmt`. */
  method RunAuth(argc: int, pollResult: int, stdin: Option<string>,
                 start: PamStatus, auth: PamStatus, acct: PamStatus,
                 authConv: seq<seq<PamMessage>>, acctConv: seq<seq<PamMessage>>,
                 password: array<char>, messages: PamMessageBuffer)
    returns (exit: int, calls: seq<PamCall>, secret: Option<string>,
             authReplies: seq<Option<seq<Option<string>>>>, acctReplies: seq<Option<seq<Option<string>>>>)
    requires password.Length == PassMax && messages.Valid() && messages.data != password
    modifies password, messages.data
    ensures messages.Valid()
    ensures Verdict(exit, calls) == Decide(argc, pollResult, Fgets(stdin), start, auth, acct)
    ensures secret == if calls == [] then None else Some(StripNewline(Fgets(stdin).value))
    ensures secret.None? ==> authReplies == [] && acctReplies == []
    ensures secret.Some? ==> (authReplies, acctReplies) == Handed(secret, start, auth, authConv, acctConv)
    ensures exit == 100 ==> unchanged(password) && unchanged(messages.data)
    ensures exit != 100 ==> forall i :: 0 <= i < PassMax ==> password[i] == '\0'
    ensures exit != 100 ==>
      messages.Contents() == if calls == [] then [] else Captured([], start, auth, authConv, acctConv)
  {
    if argc != 2 {
      return 100, [], None, [], [];
    }
    SecureBzero(password, PassMax);
    messages.Clear();
    if pollResult == 0 {
      return 103, [], None, [], [];
    }
    if pollResult < 0 {
      return 104, [], None, [], [];
    }
    exit, calls, secret, authReplies, acctReplies :=
      ReadAndRun(stdin, start, auth, acct, authConv, acctConv, password, messages);
  }

  /** `main` once stdin is readable: the password line is read into the zeroed
      buffer, its newline cut, and the PAM calls made with it. */
  method ReadAndRun(stdin: Option<string>, start: PamStatus, auth: PamStatus, acct: PamStatus,
                    authConv: seq<seq<PamMessage>>, acctConv: seq<seq<PamMessage>>,
                    password: array<char>, messages: PamMessageBuffer)
    returns (exit: int, calls: seq<PamCall>, secret: Option<string>,
             authReplies: seq<Option<seq<Option<string>>>>, acctReplies: seq<Option<seq<Option<string>>>>)
    requires password.Length == PassMax && messages.Valid() && messages.data != password
    requires forall i :: 0 <= i < PassMax ==> password[i] == '\0'
    requires messages.Contents() == []
    modifies password, messages.data
    ensures messages.Valid()
    ensures Verdict(exit, calls) == if Fgets(stdin).None? then Verdict(101, []) else PamVerdict(start, auth, acct)
    ensures secret == if Fgets(stdin).None? then None else Some(StripNewline(Fgets(stdin).value))
    ensures forall i :: 0 <= i < PassMax ==> password[i] == '\0'
    ensures messages.Contents() == if Fgets(stdin).None? then [] else Captured([], start, auth, authConv, acctConv)
    ensures secret.None? ==> authReplies == [] && acctReplies == []
    ensures secret.Some? ==> (authReplies, acctReplies) == Handed(secret, start, auth, authConv, acctConv)
  {
    var line := Fgets(stdin);
    if line.None? {
      return 101, [], None, [], [];
    }
    StoreLine(password, line.value);
    var k := CutAtNewline(password, line.value);
    secret := Some(password[..k]);
    exit, calls, authReplies, acctReplies := RunPam(start, auth, acct, authConv, acctConv, password, messages);
  }

  /** The replies of the conversations `pam_authenticate` and `pam_acct_mgmt`
      hold when `secret` is the password read: none when nothing was read. */
  function Handed(secret: Option<string>, start: PamStatus, auth: PamStatus,
                  authConv: seq<seq<PamMessage>>, acctConv: seq<seq<PamMessage>>)
    : (seq<Option<seq<Option<string>>>>, seq<Option<seq<Option<string>>>>)
  {
    if secret.None? then ([], [])
    else (AuthReplies(start, authConv, secret.value), AcctReplies(start, auth, acctConv, secret.value))
  }

  /** The replies of the conversations `pam_authenticate` holds: none unless
      `pam_start` succeeded. */
  function AuthReplies(start: PamStatus, authConv: seq<seq<PamMessage>>, password: string)
    : (r: seq<Option<seq<Option<string>>>>)
    ensures start != Success ==> r == []
    ensures start == Success ==> |r| == |authConv|
    ensures start == Success ==> forall k :: 0 <= k < |authConv| ==> r[k] == Answers(authConv[k], password)
  {
    if start == Success then ConvReplies(authConv, password) else []
  }

  /** The replies of the conversations `pam_acct_mgmt` holds: none unless
      `pam_start` succeeded and authentication succeeded or rejected the
      password. */
  function AcctReplies(start: PamStatus, auth: PamStatus, acctConv: seq<seq<PamMessage>>, password: string)
    : (r: seq<Option<seq<Option<string>>>>)
    ensures !(start == Success && (auth == Success || auth == AuthErr)) ==> r == []
    ensures start == Success && (auth == Success || auth == AuthErr) ==> |r| == |acctConv|
    ensures start == Success && (auth == Success || auth == AuthErr) ==>
      forall k :: 0 <= k < |acctConv| ==> r[k] == Answers(acctConv[k], password)
  {
    if start == Success && (auth == Success || auth == AuthErr) then ConvReplies(acctConv, password) else []
  }

  /** `main` from `pam_start` on: the three PAM calls, the conversations they
      hold (answered with the password's C string), `pam_end` with the status
      that decided, and the password zeroed before every return. */
  method RunPam(start: PamStatus, auth: PamStatus, acct: PamStatus,
                authConv: seq<seq<PamMessage>>, acctConv: seq<seq<PamMessage>>,
                password: array<char>, messages: PamMessageBuffer)
    returns (exit: int, calls: seq<PamCall>,
             authReplies: seq<Option<seq<Option<string>>>>, acctReplies: seq<Option<seq<Option<string>>>>)
    requires password.Length == PassMax && messages.Valid() && messages.data != password
    modifies password, messages.data
    ensures messages.Valid()
    ensures Verdict(exit, calls) == PamVerdict(start, auth, acct)
    ensures forall i :: 0 <= i < PassMax ==> password[i] == '\0'
    ensures messages.Contents() == Captured(old(messages.Contents()), start, auth, authConv, acctConv)
    ensures authReplies == AuthReplies(start, authConv, CString(old(password[..])))
    ensures acctReplies == AcctReplies(start, auth, acctConv, CString(old(password[..])))
  {
    calls, acctReplies := [Start], [];
    if start != Success {
      SecureBzero(password, PassMax);
      return 102, calls, [], [];
    }
    calls := calls + [Authenticate];
    authReplies := Converse(authConv, CString(password[..]), messages);
    if auth == UserUnknown {
      SecureBzero(password, PassMax);
      return 10, calls + [End(auth)], authReplies, [];
    }
    if auth != AuthErr && auth != Success {
      SecureBzero(password, PassMax);
      return 12, calls + [End(auth)], authReplies, [];
    }
    exit, calls, acctReplies := AccountPhase(auth, acct, acctConv, password, messages);
  }

  /** `main` from `pam_acct_mgmt` on, once authentication succeeded or failed on
      the password: the account conversation, `pam_end` and the zeroing. */
  method AccountPhase(auth: PamStatus, acct: PamStatus, acctConv: seq<seq<PamMessage>>,
                      password: array<char>, messages: PamMessageBuffer)
    returns (exit: int, calls: seq<PamCall>, replies: seq<Option<seq<Option<string>>>>)
    requires auth == Success || auth == AuthErr
    requires password.Length == PassMax && messages.Valid() && messages.data != password
    modifies password, messages.data
    ensures messages.Valid()
    ensures Verdict(exit, calls) == PamVerdict(Success, auth, acct)
    ensures forall i :: 0 <= i < PassMax ==> password[i] == '\0'
    ensures messages.Contents() == ConvLog(old(messages.Contents()), acctConv)
    ensures replies == ConvReplies(acctConv, CString(old(password[..])))
  {
    replies := Converse(acctConv, CString(password[..]), messages);
    var status;
    exit, status := AccountExit(auth, acct);
    calls := [Start, Authenticate, AcctMgmt, End(status)];
    SecureBzero(password, PassMax);
  }

  /** The exit-code ladder after `pam_acct_mgmt`: the exit code and the status
      handed to `pam_end`. */
  method AccountExit(auth: PamStatus, acct: PamStatus) returns (exit: int, status: PamStatus)
    requires auth == Success || auth == AuthErr
    ensures Verdict(exit, [Start, Authenticate, AcctMgmt, End(status)]) == PamVerdict(Success, auth, acct)
  {
    if auth == Success && acct == PermDenied {
      exit, status := 30, acct;
    } else if auth == AuthErr && acct != PermDenied {
      exit, status := 11, auth;
    } else if acct == PermDenied {
      exit, status := 22, acct;
    } else if acct == AcctExpired {
      exit, status := 20, acct;
    } else if acct == NewAuthtokReqd {
      exit, status := 21, acct;
    } else if acct != Success {
      exit, status := 23, acct;
    } else {
      exit, status := 0, Success;
    }
  }
}
