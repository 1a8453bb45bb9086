/**
 * The `Input` accessor of input.go: a session ID read from a file, and
 * `Reader`, a read-through cache over the puzzle inputs of the remote service.
 * The working directory is the `Disk` object (a map from file name to bytes);
 * the remote service is the `Network` object, an oracle that answers the n-th
 * request it is sent. `Serve` is the pure specification of one `Reader`
 * call; the lemmas at the end relate several calls in a row.
 */
module Aocutil {
  import opened Wrappers
  import opened Decimal
  import opened Trim
  import opened LineParse

  newtype byte = b: int | 0 <= b < 0x100

  /** Go's `int64`, and `int` on a 64-bit platform. */
  newtype int64 = x: int | -0x8000_0000_0000_0000 <= x < 0x8000_0000_0000_0000

  datatype Error =
    | NotExist                       // an error for which errors.Is(err, os.ErrNotExist) holds
    | FsError(reason: string)        // any other error of os.Open or os.ReadFile
    | NetError(reason: string)       // building or sending the request, or reading a response body
    | StatusError(body: seq<byte>)   // errors.New(string(body)) for a reply whose status is not 200
    | ParseError(at: LineError)      // "At index %d: ..." from a typed view

  /** What reading a stream to its end (`io.ReadAll`) gives. */
  type Stream = Result<seq<byte>, Error>

  /** The one request `fetch` sends: GET of the puzzle's input, with the cookie `session`. */
  datatype Request = Request(year: int, day: int, session: string)

  /** The fate of one request: a reply with a status and a body, or a transport failure. */
  datatype Exchange = Answered(status: int, body: Stream) | TransportFailed(cause: Error)

  /** Builds an `Input` from the contents of the session file, or passes on the error reading it. */
  function NewInputFromFile(contents: Result<string, Error>): (r: Result<Input, Error>)
    ensures contents.Failure? ==> r == Failure(contents.error)
    ensures contents.Success? ==> r.Success? && r.value.sessionID == TrimSpace(contents.value)
    ensures r.Success? ==> Trimmed(r.value.sessionID)
  {
    match contents
    case Failure(e) => Failure(e)
    case Success(s) => Success(Input(TrimSpace(s)))
  }

  /** `os.Open(path)`: the file's bytes, the error opening it, or `NotExist`. */
  function Open(files: map<string, seq<byte>>, failing: map<string, string>, path: string): (r: Stream)
    ensures r.Success? <==> path in files && path !in failing
    ensures r.Success? ==> r.value == files[path]
    ensures r == Failure(NotExist) <==> path !in files && path !in failing
  {
    if path in failing then Failure(FsError(failing[path]))
    else if path in files then Success(files[path])
    else Failure(NotExist)
  }

  /**
   * `fetch`: the body stream of a 200 reply; for any other status, the body
   * read to its end becomes the error message; a transport failure is passed on.
   */
  function Fetched(x: Exchange): (r: Result<Stream, Error>)
    ensures r.Success? <==> x.Answered? && x.status == 200
    ensures r.Success? ==> r.value == x.body
    ensures x.Answered? && x.status != 200 && x.body.Success? ==> r == Failure(StatusError(x.body.value))
    ensures x.Answered? && x.status != 200 && x.body.Failure? ==> r == Failure(x.body.error)
    ensures x.TransportFailed? ==> r == Failure(x.cause)
  {
    match x
    case TransportFailed(e) => Failure(e)
    case Answered(status, body) =>
      if status != 200 then
        match body
        case Failure(e) => Failure(e)
        case Success(b) => Failure(StatusError(b))
      else Success(body)
  }

  /** The part of the world a `Reader` call changes: the cache files and the requests sent so far. */
  datatype World = World(files: map<string, seq<byte>>, sent: seq<Request>)

  /** The part it does not change: which opens fail, whether writes succeed, how the service answers. */
  datatype Env = Env(failing: map<string, string>, writable: bool, reply: (nat, Request) -> Exchange)

  /** One `Reader(year, day)` call: the new world and the bytes the returned stream holds, or the error. */
  function Serve(w: World, env: Env, session: string, year: int, day: int): (out: (World, Stream))
    // served from the cache: exactly the cached bytes, nothing sent, nothing written
    ensures CacheKey(year, day) in w.files && CacheKey(year, day) !in env.failing
            ==> out == (w, Success(w.files[CacheKey(year, day)]))
    // any other open error: passed on as it is, nothing sent, nothing written
    ensures CacheKey(year, day) in env.failing
            ==> out == (w, Failure(FsError(env.failing[CacheKey(year, day)])))
    // not cached: exactly one request is sent. A delivered body is returned,
    // and stored only if the disk is writable (a failed write is ignored). Any
    // other reply gives its transport error, its body-read error, or, for a
    // status other than 200, an error carrying the body.
    ensures CacheKey(year, day) !in w.files && CacheKey(year, day) !in env.failing
            ==> var x := env.reply(|w.sent|, Request(year, day, session));
                && out.0.sent == w.sent + [Request(year, day, session)]
                && out.1 == (if Delivered(x) then Success(x.body.value)
                             else Failure(if x.TransportFailed? then x.cause
                                          else if x.body.Failure? then x.body.error
                                          else StatusError(x.body.value)))
                && out.0.files == if Delivered(x) && env.writable
                                  then w.files[CacheKey(year, day) := x.body.value] else w.files
    // cached entries are never replaced, and no other file is written
    ensures out.0.files == w.files || (CacheKey(year, day) !in w.files && out.1.Success?
                                       && out.0.files == w.files[CacheKey(year, day) := out.1.value])
    ensures out.0.sent == w.sent || out.0.sent == w.sent + [Request(year, day, session)]
  {
    var fn := CacheKey(year, day);
    var f := Open(w.files, env.failing, fn);
    if f == Failure(NotExist) then
      var req := Request(year, day, session);
      var w' := World(w.files, w.sent + [req]);
      match Fetched(env.reply(|w.sent|, req))
      case Failure(e) => (w', Failure(e))
      case Success(Failure(e)) => (w', Failure(e))
      case Success(Success(data)) =>
        (if env.writable then World(w.files[fn := data], w'.sent) else w', Success(data))
    else (w, f)
  }

  /** The working directory that holds the cache files. */
  class Disk {
    var files: map<string, seq<byte>>
    /** Files whose opening fails with an error other than "not exist", and why. */
    const failing: map<string, string>
    /** Whether `os.WriteFile` succeeds. */
    const writable: bool

    constructor (files: map<string, seq<byte>>, failing: map<string, string>, writable: bool)
      ensures this.files == files && this.failing == failing && this.writable == writable
    {
      this.files, this.failing, this.writable := files, failing, writable;
    }

    /** `os.WriteFile(path, data, 0644)`: replaces the whole file, or fails and changes nothing. */
    method WriteFile(path: string, data: seq<byte>) returns (err: Option<Error>)
      modifies this
      ensures err.None? <==> writable
      ensures files == if writable then old(files)[path := data] else old(files)
    {
      if writable {
        files := files[path := data];
        err := None;
      } else {
        err := Some(FsError("permission denied"));
      }
    }
  }

  /** The remote input service, as seen from this program. */
  class Network {
    /** Every request attempted so far, in order, including those that failed in transport. */
    var sent: seq<Request>
    /** The answer to the n-th request (counting from 0). */
    const reply: (nat, Request) -> Exchange

    constructor (reply: (nat, Request) -> Exchange)
      ensures sent == [] && this.reply == reply
    {
      sent, this.reply := [], reply;
    }

    /** `http.DefaultClient.Do(r)`. */
    method Do(req: Request) returns (x: Exchange)
      modifies this
      ensures sent == old(sent) + [req]
      ensures x == reply(|old(sent)|, req)
    {
      x := reply(|sent|, req);
      sent := sent + [req];
    }
  }

  function WorldOf(disk: Disk, net: Network): World
    reads disk, net
  {
    World(disk.files, net.sent)
  }

  function EnvOf(disk: Disk, net: Network): Env {
    Env(disk.failing, disk.writable, net.reply)
  }

  /** The session ID, kept for the lifetime of the accessor and sent as a cookie. */
  datatype Input = Input(sessionID: string) {

    /** `fetch(year, day)`: one request; the body stream of a 200 reply, or an error. */
    method Fetch(year: int, day: int, net: Network) returns (rc: Result<Stream, Error>)
      modifies net
      ensures net.sent == old(net.sent) + [Request(year, day, sessionID)]
      ensures rc == Fetched(net.reply(|old(net.sent)|, Request(year, day, sessionID)))
    {
      var s := net.Do(Request(year, day, sessionID));
      if s.TransportFailed? {
        return Failure(s.cause);
      }
      if s.status != 200 {
        if s.body.Failure? {
          return Failure(s.body.error);
        }
        return Failure(StatusError(s.body.value));
      }
      rc := Success(s.body);
    }

    /**
     * `Reader(year, day)`: the cached file if there is one; otherwise the
     * fetched input, which is written to the cache on a best-effort basis.
     * The result is what reading the returned stream to its end gives.
     */
    method Reader(year: int, day: int, disk: Disk, net: Network) returns (r: Stream)
      modifies disk, net
      ensures (WorldOf(disk, net), r) == Serve(old(WorldOf(disk, net)), EnvOf(disk, net), sessionID, year, day)
    {
      var fn := CacheKey(year, day);
      var f := Open(disk.files, disk.failing, fn);
      if f == Failure(NotExist) {
        var rc := Fetch(year, day, net);
        if rc.Failure? {
          return Failure(rc.error);
        }
        var data := rc.value;
        if data.Failure? {
          return Failure(data.error);
        }
        // a failed write is only logged: the data is already in memory
        var _ := disk.WriteFile(fn, data.value);
        return Success(data.value);
      } else if f.Failure? {
        return Failure(f.error);
      } else {
        return f;
      }
    }

    /** `Strings`: every line of the input, in order; only the `Reader` error can occur. */
    method Strings(year: int, day: int, disk: Disk, net: Network, split: seq<byte> -> seq<string>)
      returns (strs: seq<string>, err: Option<Error>)
      modifies disk, net
      ensures var (w, r) := Serve(old(WorldOf(disk, net)), EnvOf(disk, net), sessionID, year, day);
              && WorldOf(disk, net) == w
              && (r.Failure? ==> strs == [] && err == Some(r.error))
              && (r.Success? ==> strs == split(r.value) && err == None)
    {
      var rc := Reader(year, day, disk, net);
      if rc.Failure? {
        return [], Some(rc.error);
      }
      strs := CollectLines(split(rc.value));
      err := None;
    }

    /**
     * The common shape of `Ints`, `Int64s` and `BigInts`: the `Reader` error
     * with no values, or the parse of the input's lines with `convert`.
     */
    method Typed<T>(year: int, day: int, disk: Disk, net: Network,
                    split: seq<byte> -> seq<string>, convert: string -> Option<T>)
      returns (vals: seq<T>, err: Option<Error>)
      modifies disk, net
      ensures var (w, r) := Serve(old(WorldOf(disk, net)), EnvOf(disk, net), sessionID, year, day);
              && WorldOf(disk, net) == w
              && (r.Failure? ==> vals == [] && err == Some(r.error))
              && (r.Success? ==> var (vs, e) := Parsed(split(r.value), convert);
                                 vals == vs && err == if e.None? then None else Some(ParseError(e.value)))
    {
      var rc := Reader(year, day, disk, net);
      if rc.Failure? {
        return [], Some(rc.error);
      }
      var e;
      vals, e := ParseLines(split(rc.value), convert);
      err := if e.None? then None else Some(ParseError(e.value));
    }

    /** `Ints`: each line through `strconv.Atoi`. */
    method Ints(year: int, day: int, disk: Disk, net: Network,
                split: seq<byte> -> seq<string>, atoi: string -> Option<int64>)
      returns (ints: seq<int64>, err: Option<Error>)
      modifies disk, net
      ensures var (w, r) := Serve(old(WorldOf(disk, net)), EnvOf(disk, net), sessionID, year, day);
              && WorldOf(disk, net) == w
              && (r.Failure? ==> ints == [] && err == Some(r.error))
              && (r.Success? ==> var (vs, e) := Parsed(split(r.value), atoi);
                                 ints == vs && err == if e.None? then None else Some(ParseError(e.value)))
    {
      ints, err := Typed(year, day, disk, net, split, atoi);
    }

    /** `Int64s`: each line through `strconv.ParseInt(line, base, 64)`. */
    method Int64s(year: int, day: int, base: int, disk: Disk, net: Network,
                  split: seq<byte> -> seq<string>, parseInt: (string, int) -> Option<int64>)
      returns (ints: seq<int64>, err: Option<Error>)
      modifies disk, net
      ensures var (w, r) := Serve(old(WorldOf(disk, net)), EnvOf(disk, net), sessionID, year, day);
              && WorldOf(disk, net) == w
              && (r.Failure? ==> ints == [] && err == Some(r.error))
              && (r.Success? ==> var (vs, e) := Parsed(split(r.value), s => parseInt(s, base));
                                 ints == vs && err == if e.None? then None else Some(ParseError(e.value)))
    {
      ints, err := Typed(year, day, disk, net, split, s => parseInt(s, base));
    }

    /** `BigInts`: each line through `new(big.Int).SetString(line, base)`. */
    method BigInts(year: int, day: int, base: int, disk: Disk, net: Network,
                   split: seq<byte> -> seq<string>, setString: (string, int) -> Option<int>)
      returns (ints: seq<int>, err: Option<Error>)
      modifies disk, net
      ensures var (w, r) := Serve(old(WorldOf(disk, net)), EnvOf(disk, net), sessionID, year, day);
              && WorldOf(disk, net) == w
              && (r.Failure? ==> ints == [] && err == Some(r.error))
              && (r.Success? ==> var (vs, e) := Parsed(split(r.value), s => setString(s, base));
                                 ints == vs && err == if e.None? then None else Some(ParseError(e.value)))
    {
      ints, err := Typed(year, day, disk, net, split, s => setString(s, base));
    }
  }

  /** A reply that `Reader` turns into data: status 200 and a body that reads to its end. */
  predicate Delivered(x: Exchange) {
    x.Answered? && x.status == 200 && x.body.Success?
  }

  /** `Reader` called once per (year, day) pair, in order, by one accessor. */
  function ServeAll(w: World, env: Env, session: string, pairs: seq<(int, int)>): World
    decreases |pairs|
  {
    if pairs == [] then w
    else ServeAll(Serve(w, env, session, pairs[0].0, pairs[0].1).0, env, session, pairs[1..])
  }

  /** `w'` keeps every cache entry of `w` unchanged and extends its log of sent requests. */
  ghost predicate Grows(w: World, w': World) {
    && (forall k :: k in w.files ==> k in w'.files && w'.files[k] == w.files[k])
    && |w.sent| <= |w'.sent| && w'.sent[..|w.sent|] == w.sent
  }

  /** One read grows the world, and it sends a request only for a puzzle that is not cached. */
  lemma ServeGrows(w: World, env: Env, session: string, year: int, day: int)
    ensures var w1 := Serve(w, env, session, year, day).0;
            && Grows(w, w1)
            && (|w.sent| < |w1.sent| ==> && w1.sent == w.sent + [Request(year, day, session)]
                                         && CacheKey(year, day) !in w.files
                                         && CacheKey(year, day) !in env.failing)
  {
  }

  /** A cache entry, once created, is never updated or deleted; requests are only ever added. */
  lemma {:induction false} CacheOnlyGrows(w: World, env: Env, session: string, pairs: seq<(int, int)>)
    ensures Grows(w, ServeAll(w, env, session, pairs))
    decreases |pairs|
  {
    if pairs != [] {
      var w1 := Serve(w, env, session, pairs[0].0, pairs[0].1).0;
      var w' := ServeAll(w1, env, session, pairs[1..]);
      ServeGrows(w, env, session, pairs[0].0, pairs[0].1);
      CacheOnlyGrows(w1, env, session, pairs[1..]);
      assert w'.sent[..|w.sent|] == w'.sent[..|w1.sent|][..|w.sent|];
    }
  }

  /** No request in `sent` from index `from` on is for the puzzle (year, day). */
  ghost predicate NoRequestFor(sent: seq<Request>, from: nat, year: int, day: int) {
    forall i :: from <= i < |sent| ==> !(sent[i].year == year && sent[i].day == day)
  }

  /** A read keeps a cached (or unopenable) puzzle so, and sends no request for it. */
  lemma StepKeepsCached(w: World, env: Env, session: string, y0: int, d0: int, year: int, day: int)
    requires CacheKey(year, day) in w.files || CacheKey(year, day) in env.failing
    ensures var w1 := Serve(w, env, session, y0, d0).0;
            && (CacheKey(year, day) in w1.files || CacheKey(year, day) in env.failing)
            && NoRequestFor(w1.sent, |w.sent|, year, day)
  {
  }

  /** Once a puzzle's file is in the cache (or cannot be opened), no request is ever sent for that puzzle. */
  lemma {:induction false} NoFetchOnceCached(w: World, env: Env, session: string, pairs: seq<(int, int)>,
                                             year: int, day: int)
    requires CacheKey(year, day) in w.files || CacheKey(year, day) in env.failing
    ensures NoRequestFor(ServeAll(w, env, session, pairs).sent, |w.sent|, year, day)
    decreases |pairs|
  {
    if pairs != [] {
      var w1 := Serve(w, env, session, pairs[0].0, pairs[0].1).0;
      var w' := ServeAll(w1, env, session, pairs[1..]);
      StepKeepsCached(w, env, session, pairs[0].0, pairs[0].1, year, day);
      NoFetchOnceCached(w1, env, session, pairs[1..], year, day);
      CacheOnlyGrows(w1, env, session, pairs[1..]);
      forall i | |w.sent| <= i < |w1.sent| ensures w'.sent[i] == w1.sent[i] {
        assert w'.sent[..|w1.sent|][i] == w'.sent[i];
      }
    }
  }

  /** With a writable cache, a read whose request was delivered leaves the puzzle cached. */
  lemma DeliveredStepCaches(w: World, env: Env, session: string, year: int, day: int)
    requires env.writable
    ensures var w1 := Serve(w, env, session, year, day).0;
            |w.sent| < |w1.sent| && Delivered(env.reply(|w.sent|, Request(year, day, session)))
            ==> CacheKey(year, day) in w1.files
  {
  }

  /**
   * No request in `sent` from index `from` on that the service answered with
   * the puzzle's input is followed by another request for the same puzzle.
   */
  ghost predicate DeliveredOnce(env: Env, sent: seq<Request>, from: nat) {
    forall i, j :: from <= i < j < |sent| && sent[i].year == sent[j].year && sent[i].day == sent[j].day
                   ==> !Delivered(env.reply(i, sent[i]))
  }

  /**
   * With a writable cache, the service delivers each puzzle's input at most
   * once over any run of reads: after a delivered fetch, every later read of
   * that puzzle is served from the cache.
   */
  lemma {:induction false} DeliveredAtMostOnce(w: World, env: Env, session: string, pairs: seq<(int, int)>)
    requires env.writable
    ensures DeliveredOnce(env, ServeAll(w, env, session, pairs).sent, |w.sent|)
    decreases |pairs|
  {
    if pairs != [] {
      var (y0, d0) := pairs[0];
      var w1 := Serve(w, env, session, y0, d0).0;
      var w' := ServeAll(w1, env, session, pairs[1..]);
      assert w' == ServeAll(w, env, session, pairs);
      ServeGrows(w, env, session, y0, d0);
      DeliveredStepCaches(w, env, session, y0, d0);
      DeliveredAtMostOnce(w1, env, session, pairs[1..]);
      CacheOnlyGrows(w1, env, session, pairs[1..]);
      if |w.sent| < |w1.sent| && Delivered(env.reply(|w.sent|, Request(y0, d0, session))) {
        NoFetchOnceCached(w1, env, session, pairs[1..], y0, d0);
      }
      DeliveredOnceExtend(env, w.sent, w1.sent, w'.sent, Request(y0, d0, session));
    }
  }

  /**
   * The step of `DeliveredAtMostOnce`: one request in front of a log that
   * already has the property keeps it, provided that a delivered first
   * request is never followed by another for the same puzzle.
   */
  lemma DeliveredOnceExtend(env: Env, sent0: seq<Request>, sent1: seq<Request>, sent: seq<Request>, req: Request)
    requires |sent1| <= |sent| && sent[..|sent1|] == sent1
    requires sent1 == sent0 || sent1 == sent0 + [req]
    requires DeliveredOnce(env, sent, |sent1|)
    requires |sent0| < |sent1| && Delivered(env.reply(|sent0|, req))
             ==> NoRequestFor(sent, |sent1|, req.year, req.day)
    ensures DeliveredOnce(env, sent, |sent0|)
  {
  }

  /**
   * After a successful read with a writable cache, reading the same puzzle
   * again, with this or any other session ID, sends nothing and yields the
   * same bytes: what was stored is what was fetched.
   */
  lemma SecondReadHitsCache(w: World, env: Env, session: string, other: string, year: int, day: int)
    requires env.writable
    ensures var (w1, r1) := Serve(w, env, session, year, day);
            r1.Success? ==> Serve(w1, env, other, year, day) == (w1, r1)
  {
  }

  /**
   * A fetch that fails is not remembered: reading the same puzzle again sends
   * a second request for it.
   */
  lemma FailedFetchIsRepeated(w: World, env: Env, session: string, year: int, day: int)
    requires CacheKey(year, day) !in w.files && CacheKey(year, day) !in env.failing
    requires !Delivered(env.reply(|w.sent|, Request(year, day, session)))
    ensures var w1 := Serve(w, env, session, year, day).0;
            && Serve(w, env, session, year, day).1.Failure?
            && Serve(w1, env, session, year, day).0.sent
               == w.sent + [Request(year, day, session), Request(year, day, session)]
  {
  }

  /**
   * While the cache cannot be written, nothing is remembered, whatever the
   * service answers: reading the same puzzle again sends a second request.
   */
  lemma UnwritableFetchIsRepeated(w: World, env: Env, session: string, year: int, day: int)
    requires !env.writable
    requires CacheKey(year, day) !in w.files && CacheKey(year, day) !in env.failing
    ensures var w1 := Serve(w, env, session, year, day).0;
            && w1.files == w.files
            && Serve(w1, env, session, year, day).0.sent
               == w.sent + [Request(year, day, session), Request(year, day, session)]
  {
  }

  /**
   * With lines "10", "20", "bad", "40" and a decimal conversion, the parse
   * stops at index 2 and returns [10, 20].
   */
  lemma PartialResultExample()
    ensures Parsed(["10", "20", "bad", "40"], ParseDecimal) == ([10, 20], Some(LineError(2, "bad")))
  {
    assert "10"[..1] == "1" && "20"[..1] == "2" && "1"[..0] == "2"[..0] == "";
    assert DecimalValue("10") == 10 && DecimalValue("20") == 20;
    assert ParseDecimal("10") == Some(10) && ParseDecimal("20") == Some(20);
    assert ["10", "20"][1..] == ["20"] && ["20"][1..] == [];
    assert Parsed(["10", "20"], ParseDecimal).0 == [10, 20];
    assert ParseDecimal("bad") == None by { assert !IsDigit('b'); }
    assert ["10", "20", "bad", "40"] == ["10", "20"] + ["bad"] + ["40"];
    ParsedStopsAtFailure(["10", "20"], "bad", ["40"], ParseDecimal);
  }
}
