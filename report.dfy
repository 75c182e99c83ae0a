/** The text and HTML bodies `send_email` builds from the run's log text and
    its failure groups: the log is cut into one bordered section per
    "Processing import for " marker, then the non-empty failure groups are
    listed. Building the MIME message and sending it are not modelled. */
module Report {
  import opened PyText
  import opened Batch

  const TextHeader := "Import process report:\n\n"
  const HtmlHeader := "<html><body><h3>Import process report:</h3><pre style='font-family: monospace;'>"
  const HtmlFooter := "</pre></body></html>"
  const FailureHeader := "Invalid Imports Detected:\n\n"

  /** `'-' * n` */
  function Dashes(n: nat): (r: string)
    ensures |r| == n && forall k :: 0 <= k < n ==> r[k] == '-'
  {
    if n == 0 then "" else Dashes(n - 1) + "-"
  }

  /** `'-' * 80` */
  const Separator := Dashes(80)

  /** `f"{separator}\n{section_text}\n{separator}\n\n"` */
  function Bordered(text: string): string
  {
    Separator + "\n" + text + "\n" + Separator + "\n\n"
  }

  /** The i-th piece of the log with the marker put back, except for the
      text before the first marker. */
  function SectionSource(sections: seq<string>, i: nat): string
    requires i < |sections|
  {
    if i > 0 then Marker + sections[i] else sections[i]
  }

  /** What the i-th piece of the log adds to the body: nothing when it is
      empty, otherwise its stripped text between two separators. */
  function SectionBlock(sections: seq<string>, i: nat): string
    requires i < |sections|
  {
    if sections[i] == "" then "" else Bordered(Strip(SectionSource(sections, i)))
  }

  /** The blocks of the first n pieces, in order. */
  function SectionsUpTo(sections: seq<string>, n: nat): string
    requires n <= |sections|
  {
    if n == 0 then "" else SectionsUpTo(sections, n - 1) + SectionBlock(sections, n - 1)
  }

  /** `f"  - {name}"` for each message of a group. */
  function Bullets(group: seq<string>): (r: seq<string>)
    ensures |r| == |group|
    ensures forall k :: 0 <= k < |group| ==> r[k] == "  - " + group[k]
  {
    seq(|group|, k requires 0 <= k < |group| => "  - " + group[k])
  }

  /** What one failure group adds: nothing when it is empty. */
  function GroupBlock(group: seq<string>): string
  {
    if |group| == 0 then "" else "File import log:\n" + FileLogs(group)
  }

  /** `'\n'.join(f"  - {name}" for name in import_group) + '\n\n'` */
  function FileLogs(group: seq<string>): string
  {
    Join(Bullets(group), "\n") + "\n\n"
  }

  function GroupsUpTo(groups: seq<seq<string>>, n: nat): string
    requires n <= |groups|
  {
    if n == 0 then "" else GroupsUpTo(groups, n - 1) + GroupBlock(groups[n - 1])
  }

  function LogPart(logMessages: string): string
  {
    if logMessages == "" then ""
    else
      var sections := Split(logMessages, Marker);
      SectionsUpTo(sections, |sections|)
  }

  function FailurePart(invalidImports: seq<seq<string>>): string
  {
    if invalidImports == [] then "" else FailureHeader + GroupsUpTo(invalidImports, |invalidImports|)
  }

  /** The part the text and the HTML bodies have in common. */
  function ReportContent(logMessages: string, invalidImports: seq<seq<string>>): string
  {
    LogPart(logMessages) + FailurePart(invalidImports)
  }

  /** `send_email`'s `text_body` and `html_body`. The source appends every
      piece to both bodies; here the pieces are gathered once and each body
      is its own header, the pieces, and (for HTML) its footer. */
  method ComposeReport(logMessages: string, invalidImports: seq<seq<string>>)
    returns (textBody: string, htmlBody: string)
    ensures textBody == TextHeader + ReportContent(logMessages, invalidImports)
    ensures htmlBody == HtmlHeader + ReportContent(logMessages, invalidImports) + HtmlFooter
  {
    var logPart := LogSections(logMessages);
    var failurePart := FailureSections(invalidImports);
    var content := logPart + failurePart;
    textBody := TextHeader + content;
    htmlBody := HtmlHeader + content + HtmlFooter;
  }

  /** The `if log_messages:` block: one bordered block per non-empty section. */
  method LogSections(logMessages: string) returns (content: string)
    ensures content == LogPart(logMessages)
  {
    content := "";
    if logMessages != "" {
      var sections := Split(logMessages, Marker);
      for i := 0 to |sections|
        invariant content == SectionsUpTo(sections, i)
      {
        if sections[i] == "" {
          continue;
        }
        var sectionText := Strip(if i > 0 then Marker + sections[i] else sections[i]);
        content := content + Bordered(sectionText);
      }
    }
  }

  /** The `if invalid_imports:` block: the header, then one block per
      non-empty group. */
  method FailureSections(invalidImports: seq<seq<string>>) returns (content: string)
    ensures content == FailurePart(invalidImports)
  {
    content := "";
    if invalidImports != [] {
      content := FailureHeader;
      for k := 0 to |invalidImports|
        invariant content == FailureHeader + GroupsUpTo(invalidImports, k)
      {
        var group := invalidImports[k];
        Associative(FailureHeader, GroupsUpTo(invalidImports, k), GroupBlock(group));
        if group != [] {
          content := content + ("File import log:\n" + FileLogs(group));
        } else {
          assert content + GroupBlock(group) == content;
        }
      }
    }
  }

  lemma Associative(a: string, b: string, c: string)
    ensures a + b + c == a + (b + c)
  {
  }

  /** The separator-first concatenation `sep + ys[0] + sep + ys[1] + ...`. */
  function Prefixed(ys: seq<string>, sep: string): string
    decreases |ys|
  {
    if |ys| == 0 then "" else sep + ys[0] + Prefixed(ys[1..], sep)
  }

  lemma {:induction false} JoinIsPrefixed(xs: seq<string>, sep: string)
    requires |xs| >= 1
    ensures Join(xs, sep) == xs[0] + Prefixed(xs[1..], sep)
    decreases |xs|
  {
    if |xs| >= 2 {
      JoinIsPrefixed(xs[1..], sep);
      assert xs[1..][1..] == xs[2..];
    }
  }

  /** The concatenation of the sources of pieces n.. of the log. */
  function SourcesFrom(sections: seq<string>, n: nat): string
    requires n <= |sections|
    decreases |sections| - n
  {
    if n == |sections| then "" else SectionSource(sections, n) + SourcesFrom(sections, n + 1)
  }

  lemma {:induction false} SourcesArePrefixed(sections: seq<string>, n: nat)
    requires 1 <= n <= |sections|
    ensures SourcesFrom(sections, n) == Prefixed(sections[n..], Marker)
    decreases |sections| - n
  {
    if n < |sections| {
      SourcesArePrefixed(sections, n + 1);
      assert sections[n..][1..] == sections[n + 1..];
    }
  }

  /** Cutting the log into sections loses and repeats nothing: the sections'
      texts before stripping, in order, make up the whole log, and no
      section holds a second marker. */
  lemma SectionsCoverLog(logMessages: string)
    ensures var sections := Split(logMessages, Marker);
            && SourcesFrom(sections, 0) == logMessages
            && forall i :: 0 <= i < |sections| ==> !Contains(sections[i], Marker)
  {
    var sections := Split(logMessages, Marker);
    SplitJoin(logMessages, Marker);
    JoinIsPrefixed(sections, Marker);
    SourcesArePrefixed(sections, 1);
  }

  /** A log with no marker in it is reported as one section. */
  lemma NoMarkerOneSection(logMessages: string)
    requires logMessages != "" && !Contains(logMessages, Marker)
    ensures LogPart(logMessages) == Bordered(Strip(logMessages))
  {
    assert Find(logMessages, Marker).None?;
    var sections := Split(logMessages, Marker);
    assert sections == [logMessages];
    assert SectionBlock(sections, 0) == Bordered(Strip(logMessages));
    assert SectionsUpTo(sections, 1) == SectionsUpTo(sections, 0) + SectionBlock(sections, 0);
  }

  /** When the log starts with a marker, as it does when the first
      configuration is well formed, nothing is reported before the first
      section. */
  lemma LeadingMarkerSkipped(logMessages: string)
    requires |logMessages| >= |Marker| && logMessages[..|Marker|] == Marker
    ensures Split(logMessages, Marker)[0] == ""
    ensures SectionBlock(Split(logMessages, Marker), 0) == ""
  {
    assert OccursAt(logMessages, Marker, 0);
    FirstOccurrenceUnique(logMessages, Marker, Find(logMessages, Marker), 0);
  }

  /** A run whose first configuration is well formed logs the marker first. */
  lemma BatchLogStartsWithMarker(io: Io, configs: seq<seq<string>>)
    requires |configs| > 0 && |configs[0]| == 4
    ensures var text := LogText(BatchRun(io, configs).log);
            |text| >= |Marker| && text[..|Marker|] == Marker
  {
    var lines := ConfigOutcome(io, configs[0]).logLines;
    var log := BatchRun(io, configs).log;
    BatchFirst(io, configs);
    ProcessingLineFirst(io, configs[0]);
    assert log[0] == lines[0];
    LogTextHead(log);
    var text := LogText(log);
    assert text[..|Marker|] == text[..|lines[0]|][..|Marker|];
  }

  /** The log text starts with the first message. */
  lemma LogTextHead(lines: seq<string>)
    requires |lines| > 0
    ensures |LogText(lines)| >= |lines[0]| && LogText(lines)[..|lines[0]|] == lines[0]
  {
    LogTextConcat([lines[0]], lines[1..]);
    assert [lines[0]] + lines[1..] == lines;
    LogTextOne(lines[0]);
  }

  /** Each message of a group whose messages hold no newline is one bullet
      line of its block. */
  lemma GroupBlockLines(group: seq<string>)
    requires |group| > 0
    requires forall k :: 0 <= k < |group| ==> '\n' !in group[k]
    ensures GroupBlock(group) == "File import log:\n" + Join(Bullets(group), "\n") + "\n\n"
    ensures Split(Join(Bullets(group), "\n"), "\n") == Bullets(group)
  {
    var bullets := Bullets(group);
    forall k | 0 <= k < |bullets|
      ensures '\n' !in bullets[k]
    {
      assert bullets[k] == "  - " + group[k];
    }
    JoinSplit(bullets, '\n');
  }
}
