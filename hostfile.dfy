/**
 * The host-list file shared by the migration and the helper scripts: one
 * host per line, whitespace-separated columns, and lines that are blank or
 * start with '#' once stripped carry no host (lib/migrationmanager.py,
 * bin/generate_kayobe_commands.py, bin/update_jira_tickets.py).
 */
module HostFile {
  import opened PyStr

  /** A line that names a host: not blank and not a comment once stripped. */
  predicate Kept(line: string) {
    var stripped := Strip(line);
    stripped != [] && !StartsWith(stripped, "#")
  }

  /** The whitespace columns of a line. */
  function Columns(line: string): seq<string> {
    Split(Strip(line))
  }

  /** The stripped lines that name hosts, in file order. */
  function KeptLines(lines: seq<string>): (r: seq<string>)
    ensures |r| <= |lines|
  {
    if lines == [] then []
    else
      var init := KeptLines(lines[..|lines| - 1]);
      if Kept(lines[|lines| - 1]) then init + [Strip(lines[|lines| - 1])] else init
  }

  /** A kept line has at least one column. */
  lemma KeptHasColumn(line: string)
    requires Kept(line)
    ensures |Columns(line)| >= 1
  {
    StripEdges(line);
    assert LStrip(Strip(line)) == Strip(line);
  }
}
