/**
 * `generate_response`: the model backend streams one JSON object per line,
 * and the scripts add up the `response` field of every non-empty line.  The
 * HTTP request is not modelled; the lines are given, already decoded from
 * UTF-8.  Three variants differ in what a line that cannot be used adds:
 * the line itself (`ollama_run_mcp.py`, `ollama_run_mcp_try.py`,
 * `ollama_run_agentx.py`), nothing (`ollama_run_agentx_mcp.py`), or the
 * exception, which ends the fold (`ollama_run_sales_tools.py`).
 */
module Stream {
  import opened Strings
  import opened Json
  import opened Py

  /**
   * What one non-empty line adds: `obj.get("response", "")` of the decoded
   * line.  The decoded value must be a dict, and the field a `str`, for
   * `output += ...` to succeed.
   */
  function Fragment(decode: Decoder, line: string): Result<string> {
    var obj :- decode(line);
    var piece :- Get(obj, JStr("response"), JStr(""));
    if piece.JStr? then Ok(piece.s)
    else Err(TypeError("can only concatenate str (not \"" + TypeName(piece) + "\") to str"))
  }

  /** An empty line is skipped (`if line:`) and adds nothing. */
  function Piece(decode: Decoder, line: string): Result<string> {
    if line == "" then Ok("") else Fragment(decode, line)
  }

  /** A line whose piece cannot be taken is added verbatim. */
  function RawPiece(decode: Decoder, line: string): string {
    match Piece(decode, line)
    case Ok(p) => p
    case Err(_) => line
  }

  /** A line whose piece cannot be taken is skipped. */
  function SkipPiece(decode: Decoder, line: string): string {
    match Piece(decode, line)
    case Ok(p) => p
    case Err(_) => ""
  }

  function RawPieces(decode: Decoder, lines: seq<string>): seq<string> {
    Added(lines, RawPieceOf(decode))
  }

  function SkipPieces(decode: Decoder, lines: seq<string>): seq<string> {
    Added(lines, SkipPieceOf(decode))
  }

  /** Every line of the stream yields its piece. */
  predicate WellFormed(decode: Decoder, lines: seq<string>) {
    forall i :: 0 <= i < |lines| ==> Piece(decode, lines[i]).Ok?
  }

  /** The pieces of a well-formed stream. */
  function Pieces(decode: Decoder, lines: seq<string>): seq<string>
    requires WellFormed(decode, lines)
  {
    seq(|lines|, i requires 0 <= i < |lines| => Piece(decode, lines[i]).value)
  }

  function RawPieceOf(decode: Decoder): string -> string {
    (line: string) => RawPiece(decode, line)
  }

  function SkipPieceOf(decode: Decoder): string -> string {
    (line: string) => SkipPiece(decode, line)
  }

  function PieceOf(decode: Decoder): string -> Result<string> {
    (line: string) => Piece(decode, line)
  }

  /** `generate_response` with `output += data` on failure: each line adds its piece or itself. */
  method GenerateResponseRaw(decode: Decoder, lines: seq<string>) returns (output: string)
    ensures output == Concat(RawPieces(decode, lines))
  {
    output := AddUp(lines, RawPieceOf(decode));
  }

  /** `generate_response` with `continue` on failure: each line adds its piece or nothing. */
  method GenerateResponseSkipping(decode: Decoder, lines: seq<string>) returns (output: string)
    ensures output == Concat(SkipPieces(decode, lines))
  {
    output := AddUp(lines, SkipPieceOf(decode));
  }

  /**
   * `generate_response` without a `try`: the pieces of a well-formed stream,
   * or the exception of the first line that has none.
   */
  method GenerateResponseStrict(decode: Decoder, lines: seq<string>) returns (r: Result<string>)
    ensures r.Ok? <==> WellFormed(decode, lines)
    ensures r.Ok? ==> r.value == Concat(Pieces(decode, lines))
    ensures r.Err? ==> exists k :: 0 <= k < |lines| && Piece(decode, lines[k]) == Err(r.error)
                                   && WellFormed(decode, lines[..k])
  {
    var add := PieceOf(decode);
    r := AddUpOrRaise(lines, add);
    MapAllItems(lines, add);
    assert forall k :: 0 <= k < |lines| ==> add(lines[k]) == Piece(decode, lines[k]);
    if r.Ok? {
      assert MapAll(lines, add).value == Pieces(decode, lines);
    } else {
      var k :| 0 <= k < |lines| && add(lines[k]) == Err(r.error) && forall i :: 0 <= i < k ==> add(lines[i]).Ok?;
      assert forall i :: 0 <= i < k ==> lines[..k][i] == lines[i];
    }
  }

  /** On a well-formed stream the three variants produce the same text. */
  lemma VariantsAgreeOnWellFormed(decode: Decoder, lines: seq<string>)
    requires WellFormed(decode, lines)
    ensures Concat(RawPieces(decode, lines)) == Concat(Pieces(decode, lines))
    ensures Concat(SkipPieces(decode, lines)) == Concat(Pieces(decode, lines))
  {
    assert RawPieces(decode, lines) == Pieces(decode, lines);
    assert SkipPieces(decode, lines) == Pieces(decode, lines);
  }

  /** A stream none of whose lines yields a piece produces nothing when bad lines are skipped. */
  lemma {:induction false} SkippingDropsUnusableLines(decode: Decoder, lines: seq<string>)
    requires forall i :: 0 <= i < |lines| ==> Piece(decode, lines[i]).Err?
    ensures Concat(SkipPieces(decode, lines)) == ""
    decreases |lines|
  {
    if |lines| > 0 {
      var init := lines[..|lines| - 1];
      SkippingDropsUnusableLines(decode, init);
      assert SkipPieces(decode, lines) == SkipPieces(decode, init) + [""];
      ConcatSnoc(SkipPieces(decode, init), "");
    }
  }

  /** ... and passes the lines through unchanged when they are added verbatim. */
  lemma RawKeepsUnusableLines(decode: Decoder, lines: seq<string>)
    requires forall i :: 0 <= i < |lines| ==> Piece(decode, lines[i]).Err?
    ensures Concat(RawPieces(decode, lines)) == Concat(lines)
  {
    assert RawPieces(decode, lines) == lines;
  }

  /** The text of a stream is the text of its first part followed by that of the rest. */
  lemma RawStreamSplits(decode: Decoder, a: seq<string>, b: seq<string>)
    ensures Concat(RawPieces(decode, a + b)) == Concat(RawPieces(decode, a)) + Concat(RawPieces(decode, b))
  {
    var ab := a + b;
    assert forall i :: 0 <= i < |b| ==> ab[|a| + i] == b[i];
    assert RawPieces(decode, ab) == RawPieces(decode, a) + RawPieces(decode, b);
    ConcatAppend(RawPieces(decode, a), RawPieces(decode, b));
  }

  lemma SkippingStreamSplits(decode: Decoder, a: seq<string>, b: seq<string>)
    ensures Concat(SkipPieces(decode, a + b)) == Concat(SkipPieces(decode, a)) + Concat(SkipPieces(decode, b))
  {
    var ab := a + b;
    assert forall i :: 0 <= i < |b| ==> ab[|a| + i] == b[i];
    assert SkipPieces(decode, ab) == SkipPieces(decode, a) + SkipPieces(decode, b);
    ConcatAppend(SkipPieces(decode, a), SkipPieces(decode, b));
  }

  /** A line decoding to a dict without `response` adds nothing; one whose `response` is not a `str` is unusable. */
  lemma FragmentOfDict(decode: Decoder, line: string, fs: Fields)
    requires decode(line) == Ok(JObj(fs))
    ensures "response" !in Keys(fs) ==> Fragment(decode, line) == Ok("")
    ensures Fragment(decode, line).Ok? <==> ("response" !in Keys(fs) || Lookup(fs, "response").value.JStr?)
  {
  }
}
