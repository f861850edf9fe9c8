/**
 * bin/create_jira_tickets.py: give every host of a host-list file an issue
 * key, reusing an issue whose summary matches or creating one, and write
 * the file back.
 *
 * Jira is an oracle: the answer to a search or a creation depends on the
 * requests made before it, so an issue created for one line can be found
 * by a later search.
 */
module CreateJiraTickets {
  import opened PyStr
  import opened HvException

  const ProjectKey: string := "MH"
  const IssueType: string := "HyperVisor"

  /** `f'project = {project_key} AND summary ~ "{word}"'`. */
  function Jql(word: string): string {
    "project = " + ProjectKey + " AND summary ~ \"" + word + "\""
  }

  /** The fields of a new issue. */
  datatype IssueFields = IssueFields(project: string, summary: string, description: string,
                                     issueType: string, assignee: string)

  function NewIssue(word: string, accountId: string): IssueFields {
    IssueFields(ProjectKey, word, "Issue created for: " + word, IssueType, accountId)
  }

  /** A request sent to Jira. */
  datatype Request = Search(jql: string) | Create(fields: IssueFields)

  /** Jira's answers: the keys a search finds (at most one is asked for),
      or the key of the issue created; either can fail. */
  datatype Server = Server(
    search: (seq<Request>, string) -> Outcome<seq<string>>,
    create: (seq<Request>, IssueFields) -> Outcome<string>)

  /** The connection: the server, the account issues are assigned to, and
      the requests sent so far. */
  class Connection {
    const server: Server
    const accountId: string
    var requests: seq<Request>

    constructor (server: Server, accountId: string)
      ensures this.server == server && this.accountId == accountId && requests == []
    {
      this.server := server;
      this.accountId := accountId;
      requests := [];
    }

    /** `search_issues(jql, maxResults=1)`. */
    method SearchIssues(jql: string) returns (o: Outcome<seq<string>>)
      modifies this
      ensures requests == old(requests) + [Search(jql)] && o == server.search(old(requests), jql)
    {
      o := server.search(requests, jql);
      requests := requests + [Search(jql)];
    }

    /** `create_issue(fields=...)`: the new issue's key. */
    method CreateIssue(fields: IssueFields) returns (o: Outcome<string>)
      modifies this
      ensures requests == old(requests) + [Create(fields)] && o == server.create(old(requests), fields)
    {
      o := server.create(requests, fields);
      requests := requests + [Create(fields)];
    }
  }

  /** `[line.strip() for line in f.readlines() if line.strip()]`: comment
      lines are kept. */
  function NonEmptyLines(raw: seq<string>): (r: seq<string>)
    ensures forall k :: 0 <= k < |r| ==> r[k] != []
  {
    if raw == [] then []
    else
      var init := NonEmptyLines(raw[..|raw| - 1]);
      var stripped := Strip(raw[|raw| - 1]);
      if stripped != [] then init + [stripped] else init
  }

  /** The same comprehension read front to back: each line's stripped
      text, when not empty, in file order. */
  function StrippedInOrder(raw: seq<string>): seq<string> {
    if raw == [] then []
    else (if Strip(raw[0]) != [] then [Strip(raw[0])] else []) + StrippedInOrder(raw[1..])
  }

  /** Reading more lines only adds their kept text after what was kept. */
  lemma {:induction false} NonEmptyLinesAppend(a: seq<string>, b: seq<string>)
    ensures NonEmptyLines(a + b) == NonEmptyLines(a) + NonEmptyLines(b)
    decreases |b|
  {
    if b == [] {
      assert a + b == a;
    } else {
      var b' := b[..|b| - 1];
      assert (a + b)[..|a + b| - 1] == a + b';
      assert (a + b)[|a + b| - 1] == b[|b| - 1];
      NonEmptyLinesAppend(a, b');
    }
  }

  /** The comprehension keeps exactly the non-empty stripped lines, in
      file order: it equals the front-to-back reading. */
  lemma {:induction false} NonEmptyLinesInOrder(raw: seq<string>)
    ensures NonEmptyLines(raw) == StrippedInOrder(raw)
  {
    if raw != [] {
      assert raw == [raw[0]] + raw[1..];
      NonEmptyLinesAppend([raw[0]], raw[1..]);
      assert [raw[0]][..0] == [];
      NonEmptyLinesInOrder(raw[1..]);
    }
  }

  /** A text is kept exactly when it is the non-empty stripped form of
      some line, and no more lines are kept than read. */
  lemma {:induction false} NonEmptyLinesMembers(raw: seq<string>, s: string)
    ensures s in NonEmptyLines(raw) <==> s != [] && exists k :: 0 <= k < |raw| && Strip(raw[k]) == s
    ensures |NonEmptyLines(raw)| <= |raw|
  {
    if raw != [] {
      var init := raw[..|raw| - 1];
      NonEmptyLinesMembers(init, s);
      if s != [] && (exists k :: 0 <= k < |raw| && Strip(raw[k]) == s) {
        var k :| 0 <= k < |raw| && Strip(raw[k]) == s;
        if k < |init| {
          assert init[k] == raw[k];
        }
      }
      if s != [] && (exists k :: 0 <= k < |init| && Strip(init[k]) == s) {
        var k :| 0 <= k < |init| && Strip(init[k]) == s;
        assert raw[k] == init[k];
      }
    }
  }

  /** The lines written so far and the requests sent so far. */
  datatype Progress = Progress(updated: seq<string>, requests: seq<Request>)

  /** One line: a line holding a space is kept as it is; otherwise the key
      of the first issue the search finds, else of a newly created issue,
      is appended, and the line stays bare if creation failed too. */
  function LineStep(server: Server, accountId: string, p: Progress, word: string): Progress {
    if ' ' in word then Progress(p.updated + [word], p.requests)
    else
      var found := server.search(p.requests, Jql(word));
      var searched := p.requests + [Search(Jql(word))];
      if found.Ok? && |found.value| > 0 then Progress(p.updated + [word + " " + found.value[0]], searched)
      else
        var created := server.create(searched, NewIssue(word, accountId));
        var sent := searched + [Create(NewIssue(word, accountId))];
        if created.Ok? then Progress(p.updated + [word + " " + created.value], sent)
        else Progress(p.updated + [word], sent)
  }

  /** The loop over the lines, from the requests sent before it. */
  function Process(server: Server, accountId: string, start: seq<Request>, words: seq<string>): Progress {
    if words == [] then Progress([], start)
    else LineStep(server, accountId, Process(server, accountId, start, words[..|words| - 1]), words[|words| - 1])
  }

  /** Line `k` of the output is line `k` of the input, or that word, a
      space and a key; a line holding a space passes through unchanged. At
      most two requests are sent per line, none for a line with a space. */
  lemma {:induction false} ProcessLines(server: Server, accountId: string, start: seq<Request>, words: seq<string>)
    ensures var p := Process(server, accountId, start, words);
      |p.updated| == |words|
      && (forall k :: 0 <= k < |words| ==>
            (' ' in words[k] ==> p.updated[k] == words[k])
            && (p.updated[k] == words[k] || StartsWith(p.updated[k], words[k] + " ")))
      && |start| <= |p.requests| <= |start| + 2 * |words| && p.requests[..|start|] == start
      && ((forall k :: 0 <= k < |words| ==> ' ' in words[k]) ==> p.requests == start)
  {
    if words != [] {
      var init := words[..|words| - 1];
      var word := words[|words| - 1];
      ProcessLines(server, accountId, start, init);
      var q := Process(server, accountId, start, init);
      var p := LineStep(server, accountId, q, word);
      assert forall k :: 0 <= k < |init| ==> p.updated[k] == q.updated[k];
      if ' ' !in word {
        var found := server.search(q.requests, Jql(word));
        if found.Ok? && |found.value| > 0 {
          assert p.updated[|init|][..|word + " "|] == word + " ";
        } else if server.create(q.requests + [Search(Jql(word))], NewIssue(word, accountId)).Ok? {
          assert p.updated[|init|][..|word + " "|] == word + " ";
        }
        assert p.requests[..|q.requests|] == q.requests;
      } else {
        assert (forall k :: 0 <= k < |words| ==> ' ' in words[k]) ==> (forall k :: 0 <= k < |init| ==> ' ' in init[k]);
      }
    }
  }

  /** What is written back: every line followed by a newline. */
  function FileText(lines: seq<string>): string {
    if lines == [] then [] else FileText(lines[..|lines| - 1]) + lines[|lines| - 1] + "\n"
  }

  /** Reading the written file back by `split('\n')` gives the lines and an
      empty last item. */
  lemma {:induction false} FileTextReadBack(lines: seq<string>)
    requires forall l :: l in lines ==> '\n' !in l
    ensures SplitOn(FileText(lines), '\n') == lines + [""]
  {
    FileTextJoin(lines);
    assert forall t :: t in lines + [""] ==> t in lines || t == "";
    SplitOnOfJoin(lines + [""], '\n');
  }

  lemma {:induction false} FileTextJoin(lines: seq<string>)
    ensures FileText(lines) == Join("\n", lines + [""])
  {
    if lines != [] {
      var init := lines[..|lines| - 1];
      FileTextJoin(init);
      if init == [] {
        assert lines + [""] == [lines[0], ""];
      } else {
        JoinSnoc("\n", init, lines[|lines| - 1]);
        JoinSnoc("\n", init + [lines[|lines| - 1]], "");
        assert init + [lines[|lines| - 1]] == lines;
        JoinSnoc("\n", init, "");
      }
    }
  }

  /** `create_jira_issues_from_file(filename, ...)` given the file's lines:
      `false` and nothing written for a file with no non-empty line;
      otherwise every line is processed in order, the file is rewritten and
      the result is `true`. */
  method CreateJiraIssuesFromFile(raw: seq<string>, conn: Connection) returns (ok: bool, written: Option<string>)
    modifies conn
    ensures var lines := NonEmptyLines(raw); var p := Process(conn.server, conn.accountId, old(conn.requests), lines);
      (ok <==> lines != []) && (written.Some? <==> lines != [])
      && (lines == [] ==> conn.requests == old(conn.requests))
      && (lines != [] ==> conn.requests == p.requests && written == Some(FileText(p.updated)))
  {
    var lines := NonEmptyLines(raw);
    if lines == [] {
      return false, None;
    }
    var updatedLines: seq<string> := [];
    var i := 0;
    while i < |lines|
      invariant 0 <= i <= |lines|
      invariant Progress(updatedLines, conn.requests) == Process(conn.server, conn.accountId, old(conn.requests), lines[..i])
    {
      assert lines[..i + 1][..i] == lines[..i];
      var word := lines[i];
      updatedLines := ResolveLine(conn, updatedLines, word);
      i := i + 1;
    }
    assert lines[..i] == lines;
    var text := WriteLines(updatedLines);
    return true, Some(text);
  }

  /** The body of the loop for one line. */
  method ResolveLine(conn: Connection, updatedLines: seq<string>, word: string) returns (r: seq<string>)
    modifies conn
    ensures Progress(r, conn.requests)
      == LineStep(conn.server, conn.accountId, Progress(updatedLines, old(conn.requests)), word)
  {
    if ' ' in word {
      return updatedLines + [word];
    }
    var existing := conn.SearchIssues(Jql(word));
    if existing.Ok? && |existing.value| > 0 {
      var issueKey := existing.value[0];
      return updatedLines + [word + " " + issueKey];
    }
    var newIssue := conn.CreateIssue(NewIssue(word, conn.accountId));
    if newIssue.Ok? {
      var issueKey := newIssue.value;
      return updatedLines + [word + " " + issueKey];
    }
    r := updatedLines + [word];
  }

  /** `for line in updated_lines: f.write(line + '\n')`. */
  method WriteLines(lines: seq<string>) returns (text: string)
    ensures text == FileText(lines)
  {
    text := [];
    var i := 0;
    while i < |lines|
      invariant 0 <= i <= |lines| && text == FileText(lines[..i])
    {
      assert lines[..i + 1][..i] == lines[..i];
      text := text + (lines[i] + "\n");
      i := i + 1;
    }
    assert lines[..i] == lines;
  }
}
