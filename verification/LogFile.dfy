/** The log file: each entry is its length in decimal, a space, and that many bytes. */
module LogFiles {
  import opened Decimal

  function Frame(payload: Bytes): Bytes {
    Digits(|payload|) + [SPACE] + payload
  }

  function Frames(payloads: seq<Bytes>): Bytes
    decreases |payloads|
  {
    if payloads == [] then [] else Frames(payloads[..|payloads| - 1]) + Frame(payloads[|payloads| - 1])
  }

  /** What loading gives: the entries and the return code, or an exception for a negative length. */
  datatype Loaded = Loaded(payloads: seq<Bytes>, code: int) | LengthError

  /** A buffer of the given length: cut, or filled up with NULs. */
  function Resize(t: Bytes, n: nat): (r: Bytes)
    ensures |r| == n
  {
    if n <= |t| then t[..n] else t + seq(n - |t|, _ => 0)
  }

  /** Loading from the rest of a file; `temp` is the buffer left by the entry before. */
  function LoadFrom(file: Bytes, temp: Bytes, payloads: seq<Bytes>): Loaded
    decreases |file|
  {
    var r := ReadInt(file);
    if !r.ok then Loaded(payloads, if r.eof then 0 else 1)
    else if r.eof then Loaded(payloads, 0)
    else if r.value < 0 then LengthError
    else
      var body := r.rest[1..];
      if r.value <= |body| then LoadFrom(body[r.value..], body[..r.value], payloads + [body[..r.value]])
      else Loaded(payloads + [body + Resize(temp, r.value)[|body|..]], 0)
  }

  ghost predicate Fits(payloads: seq<Bytes>) {
    forall i :: 0 <= i < |payloads| ==> |payloads[i]| <= INT_MAX
  }

  lemma {:induction false} FramesCons(payload: Bytes, rest: seq<Bytes>)
    ensures Frames([payload] + rest) == Frame(payload) + Frames(rest)
    decreases |rest|
  {
    hide Frame;
    var all := [payload] + rest;
    if rest == [] {
      assert all[..0] == [];
      assert Frames(all) == Frames([]) + Frame(payload);
    } else {
      var k := |rest| - 1;
      assert all[..|all| - 1] == [payload] + rest[..k];
      FramesCons(payload, rest[..k]);
    }
  }

  lemma {:induction false} FramesConcat(a: seq<Bytes>, b: seq<Bytes>)
    ensures Frames(a + b) == Frames(a) + Frames(b)
    decreases |b|
  {
    hide Frame;
    if b == [] {
      assert a + b == a;
    } else {
      var k := |b| - 1;
      assert (a + b)[..|a + b| - 1] == a + b[..k];
      FramesConcat(a, b[..k]);
    }
  }

  /** Loading one frame takes exactly that frame, unless its length does not fit an int. */
  lemma LoadFrame(payload: Bytes, rest: Bytes, temp: Bytes, payloads: seq<Bytes>)
    ensures LoadFrom(Frame(payload) + rest, temp, payloads) ==
            if |payload| <= INT_MAX then LoadFrom(rest, payload, payloads + [payload]) else Loaded(payloads, 1)
  {
    var n := |payload|;
    assert Frame(payload) + rest == Digits(n) + [SPACE] + (payload + rest);
    ReadDigits(n, payload + rest);
    var body := ([SPACE] + (payload + rest))[1..];
    assert body == payload + rest && body[..n] == payload && body[n..] == rest;
  }

  /** The buffer after reading some entries: the last of them. */
  function BufferAfter(temp: Bytes, done: seq<Bytes>): Bytes {
    if done == [] then temp else done[|done| - 1]
  }

  /** Loading takes entries that fit one by one, whatever follows them. */
  lemma {:induction false} LoadFrames(todo: seq<Bytes>, rest: Bytes, temp: Bytes, payloads: seq<Bytes>)
    requires Fits(todo)
    ensures LoadFrom(Frames(todo) + rest, temp, payloads) == LoadFrom(rest, BufferAfter(temp, todo), payloads + todo)
    decreases |todo|
  {
    hide LoadFrom, Frame;
    if todo == [] {
      assert payloads + todo == payloads && Frames(todo) + rest == rest;
    } else {
      var p, more := todo[0], todo[1..];
      assert todo == [p] + more;
      FramesCons(p, more);
      assert Frames(todo) + rest == Frame(p) + (Frames(more) + rest);
      LoadFrame(p, Frames(more) + rest, temp, payloads);
      LoadFrames(more, rest, p, payloads + [p]);
      assert payloads + [p] + more == payloads + todo;
    }
  }

  /** The entries before the first that is too long. */
  lemma FirstTooLong(payloads: seq<Bytes>) returns (k: nat)
    requires !Fits(payloads)
    ensures k < |payloads| && Fits(payloads[..k]) && |payloads[k]| > INT_MAX
  {
    k := 0;
    while |payloads[k]| <= INT_MAX
      invariant k < |payloads| && forall i :: 0 <= i < k ==> |payloads[i]| <= INT_MAX
      decreases |payloads| - k
    {
      k := k + 1;
    }
  }

  /** Round trip, for any payload bytes: exactly when every length fits an int, loading gives back all entries and code 0. */
  lemma RoundTripIff(payloads: seq<Bytes>)
    ensures LoadFrom(Frames(payloads), [], []) == Loaded(payloads, 0) <==> Fits(payloads)
  {
    if Fits(payloads) {
      LoadFrames(payloads, [], [], []);
      assert Frames(payloads) + [] == Frames(payloads) && [] + payloads == payloads;
    } else {
      var k := FirstTooLong(payloads);
      LoadUpTo(payloads, k);
    }
  }

  lemma LoadUpTo(payloads: seq<Bytes>, k: nat)
    requires k < |payloads| && Fits(payloads[..k]) && |payloads[k]| > INT_MAX
    ensures LoadFrom(Frames(payloads), [], []) == Loaded(payloads[..k], 1)
  {
    hide LoadFrom, Frame, Frames;
    var done, p, rest := payloads[..k], payloads[k], payloads[k + 1..];
    assert payloads == done + ([p] + rest);
    FramesConcat(done, [p] + rest);
    FramesCons(p, rest);
    LoadFrames(done, Frame(p) + Frames(rest), [], []);
    LoadFrame(p, Frames(rest), BufferAfter([], done), [] + done);
    assert [] + done == done;
  }

  /** Loading after an append gives the old entries followed by the new ones. */
  lemma AppendRoundTrip(before: seq<Bytes>, added: seq<Bytes>)
    requires Fits(before) && Fits(added)
    ensures LoadFrom(Frames(before) + Frames(added), [], []) == Loaded(before + added, 0)
  {
    FramesConcat(before, added);
    RoundTripIff(before + added);
  }

  /** A file cut off inside its last entry: the entry is loaded all the same, with the bytes that are there, then
      those of the entry before it at the same places, then NULs; the code is 0. */
  lemma LoadCutOff(payloads: seq<Bytes>, n: nat, body: Bytes) returns (last: Bytes)
    requires Fits(payloads) && |body| < n <= INT_MAX
    ensures LoadFrom(Frames(payloads) + (Digits(n) + [SPACE] + body), [], []) == Loaded(payloads + [last], 0)
    ensures |last| == n && last[..|body|] == body
    ensures forall i :: |body| <= i < n ==>
              last[i] == if payloads != [] && i < |payloads[|payloads| - 1]| then payloads[|payloads| - 1][i] else 0
  {
    var temp := BufferAfter([], payloads);
    LoadFrames(payloads, Digits(n) + [SPACE] + body, [], []);
    ReadDigits(n, body);
    assert ([SPACE] + body)[1..] == body && [] + payloads == payloads;
    last := body + Resize(temp, n)[|body|..];
  }

  /** Bytes that hold no number end the loading; the code is 0 exactly when they are used up by looking for one. */
  lemma LoadNoNumber(payloads: seq<Bytes>, rest: Bytes)
    requires Fits(payloads) && NoNumber(rest)
    ensures var t := SkipSpace(rest);
            LoadFrom(Frames(payloads) + rest, [], []) ==
            Loaded(payloads, if t == [] || (|t| == 1 && (t[0] == PLUS || t[0] == MINUS)) then 0 else 1)
  {
    LoadFrames(payloads, rest, [], []);
    assert [] + payloads == payloads;
    ReadsNothing(rest);
  }

  /** A negative length is an exception. */
  lemma LoadNegative(payloads: seq<Bytes>, n: int, rest: Bytes)
    requires Fits(payloads) && -INT_MAX - 1 <= n < 0
    ensures LoadFrom(Frames(payloads) + (IntText(n) + [SPACE] + rest), [], []).LengthError?
  {
    LoadFrames(payloads, IntText(n) + [SPACE] + rest, [], []);
    ReadInteger(n, rest);
  }

  /** A log file on disk; `writable` says whether opening it for output succeeds. */
  class LogFile {
    var bytes: Bytes
    var writable: bool

    constructor (writable: bool)
      ensures bytes == [] && this.writable == writable
    {
      bytes := [];
      this.writable := writable;
    }

    method SaveLogEntries(payloads: seq<Bytes>) returns (code: int)
      modifies this`bytes
      ensures code == if writable then 0 else 1
      ensures bytes == if writable then Frames(payloads) else old(bytes)
    {
      if !writable {
        return 1;
      }
      bytes := [];
      code := AppendLogEntries(payloads);
      assert [] + Frames(payloads) == Frames(payloads);
    }

    method AppendLogEntries(payloads: seq<Bytes>) returns (code: int)
      modifies this`bytes
      ensures code == if writable then 0 else 1
      ensures bytes == if writable then old(bytes) + Frames(payloads) else old(bytes)
    {
      if !writable {
        return 1;
      }
      for k := 0 to |payloads|
        invariant bytes == old(bytes) + Frames(payloads[..k])
      {
        assert payloads[..k + 1][..k] == payloads[..k];
        bytes := bytes + (Digits(|payloads[k]|) + [SPACE] + payloads[k]);
      }
      assert payloads[..|payloads|] == payloads;
      return 0;
    }

    /** Reads the file from the start: a length, one separator byte, that many bytes, and so on. */
    method LoadLogEntries() returns (loaded: Loaded)
      ensures loaded == LoadFrom(bytes, [], [])
    {
      var rest, temp, payloads := bytes, [], [];
      var r := ReadInt(rest);
      while r.ok && !r.eof
        invariant LoadFrom(rest, temp, payloads) == LoadFrom(bytes, [], []) && r == ReadInt(rest)
        decreases |rest|
      {
        if r.value < 0 {
          return LengthError;
        }
        var body := r.rest[1..];
        temp := Resize(temp, r.value);
        if r.value > |body| {
          temp := body + temp[|body|..];
          return Loaded(payloads + [temp], 0);
        }
        temp := body[..r.value];
        rest, payloads := body[r.value..], payloads + [temp];
        r := ReadInt(rest);
      }
      return Loaded(payloads, if r.eof then 0 else 1);
    }
  }
}
