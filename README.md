# aocutil: a verified model of the puzzle-input accessor

`aocutil` (one Go file, `input.go`) fetches a puzzle's input from the Advent of
Code service and caches it in the working directory. It also returns the input
as typed lines: text, `int`, `int64` in a given base, or `*big.Int`. This
project models that file in Dafny and proves what it guarantees:

- `decimal.dfy` (module `Decimal`): how Go's `%d` writes an integer. It also
  covers the cache file name `"{year}_{day}.txt"` and a parser that reads that
  name back, which proves that two puzzles never share a cache file.
- `trim.dfy` (module `Trim`): `strings.TrimSpace` with the exact
  `unicode.IsSpace` character set. `NewInputFromFile` applies it to the session
  file.
- `line_parse.dfy` (module `LineParse`): the loop that `Ints`, `Int64s` and
  `BigInts` share. `Parsed` is a recursive reference definition. `ParseLines`
  is the imperative loop, proved equal to it. Lemmas cover the partial-result
  contract: the values before the first failing line, plus that line's index.
- `aocutil.dfy` (module `Aocutil`) holds the accessor itself:
  - `Input` holds the session ID.
  - `Disk` is a class for the working directory: a map from file name to bytes
    that `Reader` updates in place.
  - `Network` is a class for the remote service. It logs the requests it is
    sent and answers the n-th one with `reply(n, request)`.
  - `Input.Fetch` and `Input.Reader` are the Go methods, proved against the
    pure `Fetched` and `Serve`.
  - The typed views call `Reader` and then the parse loop.
  - Lemmas over runs of reads: a cache entry is never changed, and no request
    is sent for a cached puzzle. With a writable cache, the service delivers
    each puzzle's input at most once.

Parameters of the model stand in for what the Go code gets from outside:

- The network is the `Network` object, an oracle.
- Whether the cache can be written, and which files fail to open, are constant
  fields of `Disk`.
- The session file's contents are an argument of `NewInputFromFile`.
- The per-line conversion (`strconv.Atoi`, `strconv.ParseInt`,
  `big.Int.SetString`) is a function argument returning an `Option`.
- The line splitting done by `bufio.Scanner` is a function argument
  `split: seq<byte> -> seq<string>`.

The cache is easily read as consulting the service at most once per puzzle for
the life of the cache. The code guarantees less, and the model follows the
code: it only stores an input after a fetch succeeds. A fetch that fails (a
status other than 200, a transport error) is repeated on the next read
(`FailedFetchIsRepeated`). So is every fetch while the cache cannot be
written, even one that delivered the input (`UnwritableFetchIsRepeated`).
`DeliveredAtMostOnce` states the guarantee the code gives: with a writable
cache, the service answers each puzzle successfully at most once.

## Model

| member | source | states |
|---|---|---|
| `Decimal.NatToDecimal` | input.go:34 | the `%d` digits of a natural number: at least one digit, and no leading zero unless the number is 0 |
| `Decimal.IntToDecimal` | input.go:34 | `%d` of an integer: it starts with `-` exactly when the value is negative, every other character is a digit, there is no leading zero after the sign, and 0 is written exactly `0` |
| `Decimal.NatRoundTrip` | input.go:34 | reading the digits back gives the number written |
| `Decimal.IntRoundTrip` | input.go:34 | `ParseDecimal(IntToDecimal(i)) == Some(i)` for every integer, negative ones included |
| `Decimal.CacheKey` | input.go:34 | the cache file name is the year's `%d`, then `_`, then the day's `%d`, then the suffix `.txt` |
| `Decimal.CacheKeyRoundTrip` | input.go:34 | the file name reads back as exactly the (year, day) it was made from |
| `Decimal.CacheKeyInjective` | input.go:34 | two (year, day) pairs have the same cache file name if and only if they are equal |
| `Trim.LeadingSpaces` | input.go:29 | the count of leading characters removed: all of them are spaces, and the next one is not |
| `Trim.TrailingSpaces` | input.go:29 | the count of trailing characters removed: all of them are spaces, and the one before is not |
| `Trim.TrimSpace` | input.go:29 | the trimmed ID neither starts nor ends with a space; it is empty exactly when the file holds only spaces |
| `Trim.TrimSpaceSlice` | input.go:29 | the trimmed ID is a slice of the file contents, and only spaces were cut from either end |
| `Trim.TrimSpaceUnique` | input.go:29 | any split into leading spaces, a trimmed middle and trailing spaces has that middle as the result |
| `Trim.TrimSpaceIdempotent` | input.go:29 | trimming an already trimmed session ID changes nothing |
| `Trim.TrimSpaceDropsNewline` | input.go:22-29 | a session file holding `abc123` and a newline yields the ID `abc123` |
| `Aocutil.NewInputFromFile` | input.go:24-30 | an error reading the file is returned as it is; otherwise the session ID is the trimmed contents |
| `Aocutil.Open` | input.go:35-36 | opening succeeds exactly for an existing file with no open error; `NotExist` exactly for a missing one |
| `Aocutil.Fetched` | input.go:67-94 | success exactly for status 200, with the reply's body as the stream; for any other status, the body read to its end becomes the error message, or the read error is returned; a transport failure is passed on |
| `Aocutil.Serve` | input.go:33-65 | hit: the cached bytes, nothing sent, nothing written. Other open error: returned as is, with no fetch. Miss: exactly one request. A delivered body is returned, and stored only if the disk is writable. Otherwise the transport error or body-read error is returned unchanged, or, for a status other than 200, `StatusError(body)`. A failed call writes nothing; existing entries are never replaced; no other file changes |
| `Aocutil.Disk.WriteFile` | input.go:52 | a successful write replaces the whole file; a failed one reports an error and changes nothing |
| `Aocutil.Network.Do` | input.go:79 | logs the request and returns the service's answer to the n-th request |
| `Aocutil.Input.Fetch` | input.go:67-94 | sends exactly one request carrying the session ID; the result is `Fetched` of the answer |
| `Aocutil.Input.Reader` | input.go:33-65 | the returned data, the new cache and the new request log are exactly those of `Serve` on the old state |
| `Aocutil.Input.Strings` | input.go:109-122 | a `Reader` error gives no lines; otherwise every line, in order, and no error |
| `LineParse.CollectLines` | input.go:116-121 | the scan loop of `Strings` returns exactly the lines it is given, in order |
| `Aocutil.Input.Typed` | input.go:133-143 | a `Reader` error gives no values; otherwise the values and the line error of `Parsed` on the input's lines |
| `Aocutil.Input.Ints` | input.go:126-144 | `Typed` with the `Atoi` conversion |
| `Aocutil.Input.Int64s` | input.go:149-167 | `Typed` with `ParseInt(line, base, 64)` |
| `Aocutil.Input.BigInts` | input.go:194-214 | `Typed` with `SetString(line, base)` |
| `LineParse.Parsed` | input.go:133-143 | value k is the conversion of line k. No error exactly when every line converts, and then there is one value per line. Otherwise the error gives the index and text of the line just past the values returned, and that line does not convert |
| `LineParse.ParsedUnique` | input.go:136-139 | a values/error pair with the properties of `Parsed` is equal to `Parsed` |
| `LineParse.ParseLines` | input.go:156-166 | the loop returns exactly `Parsed(lines, convert)` |
| `LineParse.ParsedStopsAtFailure` | input.go:206-209 | lines after the first failing line are never looked at: the result is the values of the earlier lines and an error for that line |
| `LineParse.ParsedAppend` | input.go:201-213 | a prefix of lines that all convert adds its values in front and shifts the later error's index by its length |
| `Aocutil.ServeGrows` | input.go:36-58 | a read keeps every cache entry and only extends the request log, by one request for the same puzzle, sent only when its file was absent |
| `Aocutil.CacheOnlyGrows` | input.go:33-65 | over any run of reads, cache entries are never updated or deleted, and the request log only grows |
| `Aocutil.StepKeepsCached` | input.go:59-63 | a read leaves a cached or unopenable puzzle that way and sends no request for it |
| `Aocutil.DeliveredStepCaches` | input.go:47-55 | with a writable cache, a read whose request was delivered leaves the puzzle's file in the cache |
| `Aocutil.DeliveredOnceExtend` | input.go:36-58 | one more request in front keeps the delivered-at-most-once property, provided that a delivered request is not followed by another for the same puzzle |
| `Aocutil.FailedFetchIsRepeated` | input.go:40-50 | a fetch that fails stores nothing, so a second read of the same puzzle sends a second request |
| `Aocutil.UnwritableFetchIsRepeated` | input.go:47-58 | while the cache cannot be written, a read of an uncached puzzle leaves the cache as it was, so a second read sends a second request, whatever the first answer was |
| `Aocutil.NoFetchOnceCached` | input.go:33-65 | once a puzzle's file is cached or cannot be opened, no later read sends a request for it |
| `Aocutil.DeliveredAtMostOnce` | input.go:36-58 | with a writable cache, no request that the service answered with data is followed by another request for the same puzzle |
| `Aocutil.SecondReadHitsCache` | input.go:52-63 | after a successful read with a writable cache, a second read, even with another session ID, sends nothing, changes nothing and returns the same bytes |
| `Aocutil.PartialResultExample` | input.go:133-143 | the lines `10`, `20`, `bad`, `40` parse to `[10, 20]` with an error at index 2 |

## Left out

- The HTTP request itself (`http.NewRequest`, the URL, the `session` cookie, `http.DefaultClient`, input.go:68-82) is not modelled. A `Request` records the year, the day and the session ID it would carry. The answer comes from the `Network` oracle, which may also report a transport failure.
- The real filesystem is not modelled: `os.Open`, `os.ReadFile`, `os.WriteFile`, file modes and `Close`. The cache is an in-memory map. A write either succeeds as a whole or fails as a whole, and the `writable` constant decides which. A write that fails midway and leaves a truncated file is not modelled, so neither is a later read that would serve that file.
- `Aocutil.Input.Reader`: on a cache hit, the result is the file's content. A read error that the caller could hit later, while reading the returned file, is not modelled.
- Logging (`log.Println`) has no observable effect here.
- `Bytes` (input.go:96-105) is `Reader` followed by `io.ReadAll`. The model's `Reader` already returns the whole content, so `Bytes` would be the same member again.
- `Floats` and `BigFloats` (input.go:169-238) parse floating point and are not modelled.
- `strconv.Atoi`, `strconv.ParseInt` (with its base and radix prefixes) and `big.Int.SetString` are library code. They enter the model as conversion arguments returning an `Option`, and `int64` bounds their 64-bit results.
- `LineParse.LineError`: a line error carries only the line's index and text. The wrapped `*strconv.NumError` (input.go:138, input.go:161), and so whether the cause was `ErrSyntax` or `ErrRange`, is not modelled.
- `bufio.Scanner` line splitting is a parameter. `sc.Err()` is never checked (input.go:118-121, 135-143), so a scanner failure, such as a line longer than the scanner's token limit, silently ends the loop. Because the model takes the lines as given, it cannot show that truncation.
- `Aocutil.NewInputFromFile`: the file is taken as already decoded characters. How `strings.TrimSpace` decodes UTF-8, including invalid byte sequences, is not modelled. The call to `os.ReadFile` is reduced to its result, passed in as an argument.
- Concurrent readers racing on one cache file are not modelled: every call runs alone.
