/**
 * `Results`, the record of one executed command, and its Jira rendering
 * (lib/hvlocal.py). Running a command locally is an oracle: its raw
 * output is a parameter.
 */
module HvLocal {
  import opened PyStr

  /** The fields of a `Results` object as the constructor stores them. */
  datatype Results = Results(cmd: string, stdout: string, stderr: string, rc: int)

  /** What a command produced before `Results` tidied it up. */
  datatype Raw = Raw(stdout: string, stderr: string, rc: int)

  /** `Results(cmd, stdout, stderr, rc)`: both output streams are stripped. */
  function MakeResults(cmd: string, stdout: string, stderr: string, rc: int): (r: Results)
  {
    Results(cmd, Strip(stdout), Strip(stderr), rc)
  }

  /** The outputs a `Results` object holds carry no surrounding whitespace. */
  predicate Tidy(r: Results) {
    (r.stdout == [] || (!IsSpace(r.stdout[0]) && !IsSpace(r.stdout[|r.stdout| - 1])))
    && (r.stderr == [] || (!IsSpace(r.stderr[0]) && !IsSpace(r.stderr[|r.stderr| - 1])))
  }

  /** The constructor's stripping: the command and return code are kept, the
      outputs lose surrounding whitespace only, and rebuilding a `Results`
      from an existing one's fields changes nothing. */
  lemma {:induction false} MakeResultsStrips(cmd: string, stdout: string, stderr: string, rc: int)
    ensures var r := MakeResults(cmd, stdout, stderr, rc);
      Tidy(r) && r.cmd == cmd && r.rc == rc
      && MakeResults(r.cmd, r.stdout, r.stderr, r.rc) == r
  {
    StripEdges(stdout);
    StripEdges(stderr);
    StripIdempotent(stdout);
    StripIdempotent(stderr);
  }

  /** `Results(cmd, raw.stdout, raw.stderr, raw.rc)`, built from an oracle's answer. */
  function FromRaw(cmd: string, raw: Raw): (r: Results)
  {
    MakeResults(cmd, raw.stdout, raw.stderr, raw.rc)
  }

  /** Text inside a Jira `{code}` block. */
  function Code(t: string): string {
    "{code}" + t + "{code}"
  }

  /** The `report_to_jira` property. */
  function ReportToJira(r: Results): (msg: string)
  {
    "command:" + "\n" + Code(r.cmd)
    + "\n" + "stdout:" + "\n" + Code(r.stdout)
    + "\n" + "stderr:" + "\n" + Code(r.stderr)
    + "\n" + "return code:" + "\n" + Code(IntToString(r.rc))
  }

  /** The report read back: the text of its four `{code}` blocks, in order. */
  function ReportFields(report: string): seq<string>
  {
    var p := SplitOn(report, '{');
    if |p| == 9 then [AfterTag(p[1]), AfterTag(p[3]), AfterTag(p[5]), AfterTag(p[7])] else []
  }

  /** A piece of the report after a `{`, without the rest of the `{code}` tag. */
  function AfterTag(piece: string): string {
    if StartsWith(piece, "code}") then piece[5..] else piece
  }

  /** Regrouping the report's pieces around each `{`, with every literal a
      variable: `t` stands for the `{code}` tag, split as `o + c`. */
  lemma ReportRegroup(l0: string, n: string, o: string, c: string, x1: string, l1: string,
                      x2: string, l2: string, x3: string, l3: string, x4: string)
    ensures l0 + n + ((o + c) + x1 + (o + c)) + n + l1 + n + ((o + c) + x2 + (o + c))
      + n + l2 + n + ((o + c) + x3 + (o + c)) + n + l3 + n + ((o + c) + x4 + (o + c))
      == (l0 + n) + (o + ((c + x1) + (o + ((c + n + l1 + n) + (o + ((c + x2) + (o + ((c + n + l2 + n)
        + (o + ((c + x3) + (o + ((c + n + l3 + n) + (o + ((c + x4) + (o + c)))))))))))))))
  {
  }

  lemma JoinNine(sep: string, p: seq<string>)
    requires |p| == 9
    ensures Join(sep, p) == (p[0] + (sep + (p[1] + (sep + (p[2] + (sep + (p[3] + (sep + (p[4] + (sep + (p[5] + (sep + (p[6] + (sep + (p[7] + (sep + p[8]))))))))))))))))
  {
    assert Join(sep, p[8..]) == p[8];
    assert Join(sep, p[7..]) == p[7] + (sep + p[8]);
    assert Join(sep, p[6..]) == p[6] + (sep + Join(sep, p[7..]));
    assert Join(sep, p[5..]) == p[5] + (sep + Join(sep, p[6..]));
    assert Join(sep, p[4..]) == p[4] + (sep + Join(sep, p[5..]));
    assert Join(sep, p[3..]) == p[3] + (sep + Join(sep, p[4..]));
    assert Join(sep, p[2..]) == p[2] + (sep + Join(sep, p[3..]));
    assert Join(sep, p[1..]) == p[1] + (sep + Join(sep, p[2..]));
  }

  lemma NoBraceAppend(a: string, b: string)
    requires '{' !in a && '{' !in b
    ensures '{' !in a + b
  {
  }

  /** The report cut at each `{`: the pieces between the braces. */
  function Pieces(r: Results): seq<string> {
    var c := "code}";
    ["command:" + "\n", c + r.cmd, c + "\n" + "stdout:" + "\n", c + r.stdout,
     c + "\n" + "stderr:" + "\n", c + r.stderr, c + "\n" + "return code:" + "\n",
     c + IntToString(r.rc), c]
  }

  lemma ReportIsJoin(r: Results)
    ensures ReportToJira(r) == Join("{", Pieces(r))
  {
    var c := "code}";
    assert "{code}" == "{" + c;
    ReportRegroup("command:", "\n", "{", c, r.cmd, "stdout:", r.stdout, "stderr:", r.stderr,
                  "return code:", IntToString(r.rc));
    JoinNine("{", Pieces(r));
  }

  lemma PiecesBraceFree(r: Results)
    requires '{' !in r.cmd && '{' !in r.stdout && '{' !in r.stderr
    ensures forall t :: t in Pieces(r) ==> '{' !in t
  {
    var rc := IntToString(r.rc);
    assert '{' !in rc by {
      var d := NatToString(if r.rc < 0 then -r.rc else r.rc);
      assert forall k :: 0 <= k < |d| ==> IsDigit(d[k]);
    }
    NoBraceAppend("code}", r.cmd);
    NoBraceAppend("code}", r.stdout);
    NoBraceAppend("code}", r.stderr);
    NoBraceAppend("code}", rc);
  }

  /** Cut at each `{`, a report whose texts hold none gives its pieces. */
  lemma ReportSplits(r: Results)
    requires '{' !in r.cmd && '{' !in r.stdout && '{' !in r.stderr
    ensures SplitOn(ReportToJira(r), '{') == Pieces(r)
  {
    ReportIsJoin(r);
    PiecesBraceFree(r);
    SplitOnOfJoin(Pieces(r), '{');
  }

  /** The odd pieces hold the four fields after their tags. */
  lemma PiecesTags(r: Results)
    ensures |Pieces(r)| == 9
    ensures [AfterTag(Pieces(r)[1]), AfterTag(Pieces(r)[3]), AfterTag(Pieces(r)[5]), AfterTag(Pieces(r)[7])]
      == [r.cmd, r.stdout, r.stderr, IntToString(r.rc)]
  {
    var p := Pieces(r);
    assert AfterTag(p[1]) == r.cmd;
    assert AfterTag(p[3]) == r.stdout;
    assert AfterTag(p[5]) == r.stderr;
    assert AfterTag(p[7]) == IntToString(r.rc);
  }

  /** The report has exactly the sections command, stdout, stderr and return
      code, in that order; when the texts hold no `{` the four fields can be
      read back from it. */
  lemma ReportLayout(r: Results)
    requires '{' !in r.cmd && '{' !in r.stdout && '{' !in r.stderr
    ensures SplitOn(ReportToJira(r), '{') == Pieces(r)
    ensures ReportFields(ReportToJira(r)) == [r.cmd, r.stdout, r.stderr, IntToString(r.rc)]
  {
    ReportSplits(r);
    PiecesTags(r);
  }
}
