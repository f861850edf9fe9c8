/**
 * bin/update_jira_tickets.py: post one comment on the issue of every host
 * of a host-list file. The issue key is a line's second column.
 */
module UpdateJiraTickets {
  import opened PyStr
  import opened HvException
  import opened HostFile

  /** `columns[1]` on a line with one column. */
  const NoSecondColumn: Exc := PyError("IndexError", "list index out of range")

  /** The issue keys `get_list_of_jira_tickets` collects, or the error of
      the first kept line with a single column. */
  function Tickets(lines: seq<string>): Outcome<seq<string>> {
    if lines == [] then Ok([])
    else
      var init :- Tickets(lines[..|lines| - 1]);
      var columns := Columns(lines[|lines| - 1]);
      if !Kept(lines[|lines| - 1]) then Ok(init)
      else if |columns| < 2 then Raise(NoSecondColumn)
      else Ok(init + [columns[1]])
  }

  /** Every kept line has a second column. */
  predicate TwoColumns(kept: seq<string>) {
    forall k :: 0 <= k < |kept| ==> |Split(kept[k])| >= 2
  }

  /** The list is read exactly when every kept line has a second column,
      and then holds the second column of each kept line, in file order;
      otherwise the error is the `IndexError`. */
  lemma TicketsSpec(lines: seq<string>)
    ensures var kept := KeptLines(lines);
      (Tickets(lines).Ok? <==> TwoColumns(kept))
      && (Tickets(lines).Ok? ==>
            |Tickets(lines).value| == |kept|
            && forall k :: 0 <= k < |kept| ==> (|Split(kept[k])| >= 2 && Tickets(lines).value[k] == Split(kept[k])[1]))
      && (Tickets(lines).Raise? ==> Tickets(lines).exc == NoSecondColumn)
  {
    TicketsOk(lines);
    if Tickets(lines).Ok? {
      TicketsValues(lines);
    } else {
      TicketsError(lines);
    }
  }

  lemma {:induction false} TicketsOk(lines: seq<string>)
    ensures Tickets(lines).Ok? <==> TwoColumns(KeptLines(lines))
  {
    if lines != [] {
      var init := lines[..|lines| - 1];
      TicketsOk(init);
      var kept := KeptLines(init);
      var all := KeptLines(lines);
      if Kept(lines[|lines| - 1]) {
        assert all == kept + [Strip(lines[|lines| - 1])];
        assert forall k :: 0 <= k < |kept| ==> all[k] == kept[k];
        assert TwoColumns(all) <==> TwoColumns(kept) && |Split(all[|kept|])| >= 2;
        assert Tickets(lines).Ok? <==> Tickets(init).Ok? && |Columns(lines[|lines| - 1])| >= 2;
      } else {
        assert all == kept;
        assert Tickets(lines).Ok? <==> Tickets(init).Ok?;
      }
    }
  }

  lemma {:induction false} TicketsValues(lines: seq<string>)
    requires Tickets(lines).Ok?
    ensures var kept := KeptLines(lines);
      |Tickets(lines).value| == |kept|
      && forall k :: 0 <= k < |kept| ==> (|Split(kept[k])| >= 2 && Tickets(lines).value[k] == Split(kept[k])[1])
  {
    if lines != [] {
      var init := lines[..|lines| - 1];
      TicketsValues(init);
      var kept := KeptLines(init);
      if Kept(lines[|lines| - 1]) {
        var all := KeptLines(lines);
        assert all == kept + [Strip(lines[|lines| - 1])];
        assert forall k :: 0 <= k < |kept| ==> all[k] == kept[k];
      }
    }
  }

  lemma {:induction false} TicketsError(lines: seq<string>)
    requires Tickets(lines).Raise?
    ensures Tickets(lines).exc == NoSecondColumn
  {
    var init := lines[..|lines| - 1];
    if Tickets(init).Raise? {
      TicketsError(init);
    }
  }

  /** One more line of the file. */
  lemma TicketsStep(lines: seq<string>, i: nat)
    requires i < |lines|
    ensures var columns := Columns(lines[i]);
      Tickets(lines[..i + 1])
        == if Tickets(lines[..i]).Raise? || !Kept(lines[i]) then Tickets(lines[..i])
           else if |columns| < 2 then Raise(NoSecondColumn)
           else Ok(Tickets(lines[..i]).value + [columns[1]])
  {
    assert lines[..i + 1][..i] == lines[..i];
  }

  /** Once a prefix of the file fails, the whole file fails the same way. */
  lemma {:induction false} TicketsRaisedStays(lines: seq<string>, n: nat)
    requires n <= |lines| && Tickets(lines[..n]).Raise?
    ensures Tickets(lines) == Tickets(lines[..n])
    decreases |lines| - n
  {
    if n < |lines| {
      assert lines[..n + 1][..n] == lines[..n];
      RaisedStep(lines, n);
      TicketsRaisedStays(lines, n + 1);
    } else {
      assert lines[..n] == lines;
    }
  }

  lemma RaisedStep(lines: seq<string>, n: nat)
    requires n < |lines| && Tickets(lines[..n]).Raise?
    ensures Tickets(lines[..n + 1]) == Tickets(lines[..n])
  {
    assert lines[..n + 1][..n] == lines[..n];
  }

  /** `get_list_of_jira_tickets(filename)` on the lines of the file. */
  method GetListOfJiraTickets(lines: seq<string>) returns (o: Outcome<seq<string>>)
    ensures o == Tickets(lines)
  {
    var jiraTickets: seq<string> := [];
    var i := 0;
    while i < |lines|
      invariant 0 <= i <= |lines| && Tickets(lines[..i]) == Ok(jiraTickets)
    {
      TicketsStep(lines, i);
      var cleaned := Strip(lines[i]);
      if cleaned == [] {
        i := i + 1;
        continue;
      }
      if StartsWith(cleaned, "#") {
        i := i + 1;
        continue;
      }
      var columns := Split(cleaned);
      assert Kept(lines[i]) && columns == Columns(lines[i]);
      if |columns| < 2 {
        TicketsRaisedStays(lines, i + 1);
        return Raise(NoSecondColumn);
      }
      jiraTickets := jiraTickets + [columns[1]];
      i := i + 1;
    }
    assert lines[..i] == lines;
    o := Ok(jiraTickets);
  }

  /** An internal comment on an issue. */
  datatype Comment = Comment(ticket: string, body: string, isInternal: bool)

  /** `update_jira_tickets(filename, ..., comment)`: the comments posted,
      one per listed issue, in file order; a bad line stops the script
      before any comment is posted. */
  method UpdateJiraTicketsFromFile(lines: seq<string>, comment: string) returns (o: Outcome<seq<Comment>>)
    ensures o.Ok? <==> Tickets(lines).Ok?
    ensures o.Raise? ==> o.exc == NoSecondColumn
    ensures o.Ok? ==> (|o.value| == |Tickets(lines).value|
      && forall k :: 0 <= k < |o.value| ==> o.value[k] == Comment(Tickets(lines).value[k], comment, true))
  {
    TicketsSpec(lines);
    var jiraTickets :- GetListOfJiraTickets(lines);
    var posted: seq<Comment> := [];
    var i := 0;
    while i < |jiraTickets|
      invariant 0 <= i <= |jiraTickets| && |posted| == i
      invariant forall k :: 0 <= k < i ==> posted[k] == Comment(jiraTickets[k], comment, true)
    {
      posted := posted + [Comment(jiraTickets[i], comment, true)];
      i := i + 1;
    }
    o := Ok(posted);
  }
}
