/**
 * `Log`: the sensitive-key list, the logging switch and location with their fallbacks, and the
 * text a request or a response is logged as. A logged dictionary is a sequence of pairs, in the
 * order a .NET Dictionary that was only ever added to enumerates them.
 */
module Log {
  import opened Wrappers
  import opened Text

  /** A Dictionary<string, string> as its pairs. */
  type Pairs = seq<(string, NetString)>

  /** No key occurs twice. */
  predicate DistinctNames(values: Pairs) {
    forall i, j | 0 <= i < j < |values| :: values[i].0 != values[j].0
  }

  /** The keys whose values are never logged or handed to an event. */
  const NoInclude: seq<string> :=
    ["xCardNum", "xMagStripe", "xExp", "xCVV", "xToken", "xDUKPT", "xRouting", "xAccount", "xMICR"]

  predicate Sensitive(k: string) {
    k in NoInclude
  }

  /**
   * The pairs of `values` whose key is not sensitive, in order: what the event arguments keep and
   * what the request log writes.
   */
  function Filtered(values: Pairs): Pairs {
    if values == [] then []
    else
      var last := values[|values| - 1];
      Filtered(values[..|values| - 1]) + (if Sensitive(last.0) then [] else [last])
  }

  /** The sensitive keys `values` holds. */
  function SensitivePresent(values: Pairs): set<string> {
    set i | 0 <= i < |values| && Sensitive(values[i].0) :: values[i].0
  }

  /** Nothing sensitive is kept, and everything kept comes from `values`. */
  lemma {:induction false} FilteredExcludes(values: Pairs)
    ensures forall p | p in Filtered(values) :: !Sensitive(p.0) && p in values
  {
    if values != [] {
      FilteredExcludes(values[..|values| - 1]);
    }
  }

  /** Every pair with a key outside `NoInclude` is kept, value and all. */
  lemma {:induction false} FilteredKeeps(values: Pairs)
    ensures forall i | 0 <= i < |values| && !Sensitive(values[i].0) :: values[i] in Filtered(values)
  {
    if values != [] {
      var init := values[..|values| - 1];
      FilteredKeeps(init);
      forall i | 0 <= i < |values| - 1 && !Sensitive(values[i].0)
        ensures values[i] in Filtered(values)
      {
        assert values[i] == init[i];
      }
    }
  }

  /** On a dictionary, one pair is dropped per sensitive key present. */
  lemma {:induction false} FilteredSize(values: Pairs)
    requires DistinctNames(values)
    ensures |Filtered(values)| == |values| - |SensitivePresent(values)|
  {
    if values != [] {
      var init, last := values[..|values| - 1], values[|values| - 1];
      assert values == init + [last];
      FilteredSize(init);
      SensitivePresentSnoc(init, last);
      forall i | 0 <= i < |init| ensures init[i].0 != last.0 {
        assert init[i] == values[i];
      }
    }
  }

  lemma SensitivePresentSnoc(init: Pairs, last: (string, NetString))
    ensures SensitivePresent(init + [last]) ==
      SensitivePresent(init) + (if Sensitive(last.0) then {last.0} else {})
  {
    var values := init + [last];
    forall k | k in SensitivePresent(values)
      ensures k in SensitivePresent(init) || (Sensitive(last.0) && k == last.0)
    {
      var i :| 0 <= i < |values| && Sensitive(values[i].0) && values[i].0 == k;
      if i < |init| {
        assert init[i] == values[i];
      }
    }
    forall k | k in SensitivePresent(init) ensures k in SensitivePresent(values) {
      var i :| 0 <= i < |init| && Sensitive(init[i].0) && init[i].0 == k;
      assert values[i] == init[i];
    }
    if Sensitive(last.0) {
      assert values[|init|] == last;
    }
  }

  /** The pairs kept still have distinct keys, so adding them to a fresh Dictionary cannot throw. */
  lemma {:induction false} FilteredDistinct(values: Pairs)
    requires DistinctNames(values)
    ensures DistinctNames(Filtered(values))
  {
    if values != [] {
      var init, last := values[..|values| - 1], values[|values| - 1];
      FilteredDistinct(init);
      FilteredExcludes(init);
      forall p | p in Filtered(init) ensures p.0 != last.0 {
        var i :| 0 <= i < |init| && init[i] == p;
        assert values[i] == p;
      }
    }
  }

  /**
   * The Logging switch: a configuration read that throws counts as off. `None` stands for the
   * read that throws.
   */
  function EnableLogging(setting: Option<bool>): bool {
    if setting.Some? then setting.value else false
  }

  /** The log location: a configuration read that throws counts as "". */
  function LogLocation(setting: Option<NetString>): NetString {
    if setting.Some? then setting.value else Some("")
  }

  /** The gate both LogRequest and LogResponse pass before the log path is formatted. */
  predicate PassesGate(logging: Option<bool>, location: Option<NetString>) {
    EnableLogging(logging) && LogLocation(location) != Some("")
  }

  /**
   * Past the gate, the location is the format string of the log path: a null location lets the
   * gate through, but formatting it throws ArgumentNullException, and nothing is written.
   */
  predicate Appends(logging: Option<bool>, location: Option<NetString>) {
    PassesGate(logging, location) && LogLocation(location).Some?
  }

  /**
   * The gate passes exactly when logging is switched on and read without failure and the
   * location is not "" (a failed read of it counts as ""); something is written exactly when,
   * in addition, the location is not null.
   */
  lemma WritesExactly(logging: Option<bool>, location: Option<NetString>)
    ensures PassesGate(logging, location) <==>
      logging == Some(true) && location.Some? && location.value != Some("")
    ensures Appends(logging, location) <==>
      logging == Some(true) && location.Some? && location.value.Some? && location.value.value != ""
  {
  }

  /** What a call to LogRequest or LogResponse ends in. */
  datatype LogEffect =
    | Skipped              // the gate returned before anything was done
    | FormatThrew          // ArgumentNullException: the log path was formatted from a null location
    | Appended(body: string)  // the text appended to the log file

  /** Concatenation of pieces of text. */
  function Join(pieces: seq<string>): string {
    if pieces == [] then "" else Join(pieces[..|pieces| - 1]) + pieces[|pieces| - 1]
  }

  lemma {:induction false} JoinAppend(a: seq<string>, b: seq<string>)
    ensures Join(a + b) == Join(a) + Join(b)
    decreases |b|
  {
    if b == [] {
      assert a + b == a;
    } else {
      JoinAppend(a, b[..|b| - 1]);
      assert (a + b)[..|a + b| - 1] == a + b[..|b| - 1];
      assert (a + b)[|a + b| - 1] == b[|b| - 1];
    }
  }

  /** A null value is concatenated as the empty string. */
  function ValueText(v: NetString): string {
    if v.Some? then v.value else ""
  }

  /** The line a pair is logged as; `nl` stands for Environment.NewLine. */
  function Line(nl: string, p: (string, NetString)): string {
    p.0 + " = " + ValueText(p.1) + nl
  }

  function Lines(nl: string, values: Pairs): (r: seq<string>)
    ensures |r| == |values| && forall i | 0 <= i < |values| :: r[i] == Line(nl, values[i])
  {
    seq(|values|, i requires 0 <= i < |values| => Line(nl, values[i]))
  }

  /** The three header lines; `stamp` stands for the UTC time in the sortable format. */
  function Header(stamp: string, title: string, nl: string): string {
    "----" + stamp + "----" + nl + title + nl + "---------------------------" + nl
  }

  /** The logged request: the header, then a line for each pair whose key is not sensitive. */
  function RequestBody(stamp: string, nl: string, values: Pairs): string {
    Header(stamp, "Cardknox Request", nl) + Join(Lines(nl, Filtered(values)))
  }

  /** The logged response: the header, a line for every pair, then one more newline. */
  function ResponseBody(stamp: string, nl: string, values: Pairs): string {
    Header(stamp, "Cardknox Response", nl) + Join(Lines(nl, values)) + nl
  }

  /** `line` is the line of a pair of `values` whose key is outside `NoInclude`. */
  ghost predicate KeptLine(nl: string, values: Pairs, line: string) {
    exists i | 0 <= i < |values| :: !Sensitive(values[i].0) && line == Line(nl, values[i])
  }

  /**
   * The lines of the request log are exactly the lines of the non-sensitive pairs, in order: each
   * line comes from a pair of `values` whose key is outside `NoInclude`, and each such pair has
   * its line.
   */
  lemma RequestLinesFiltered(nl: string, values: Pairs)
    ensures forall j | 0 <= j < |Lines(nl, Filtered(values))| :: KeptLine(nl, values, Lines(nl, Filtered(values))[j])
    ensures forall i | 0 <= i < |values| && !Sensitive(values[i].0) :: Line(nl, values[i]) in Lines(nl, Filtered(values))
  {
    var kept := Filtered(values);
    var lines := Lines(nl, kept);
    FilteredExcludes(values);
    FilteredKeeps(values);
    forall j | 0 <= j < |lines|
      ensures KeptLine(nl, values, lines[j])
    {
      assert kept[j] in kept;
      var i :| 0 <= i < |values| && values[i] == kept[j];
      assert !Sensitive(values[i].0) && lines[j] == Line(nl, values[i]);
    }
    forall i | 0 <= i < |values| && !Sensitive(values[i].0)
      ensures Line(nl, values[i]) in lines
    {
      var j :| 0 <= j < |kept| && kept[j] == values[i];
      assert lines[j] == Line(nl, values[i]);
    }
  }

  /** The lines of a prefix grow by the next pair's line. */
  lemma LinesSnoc(nl: string, values: Pairs, i: nat)
    requires i < |values|
    ensures Lines(nl, values[..i + 1]) == Lines(nl, values[..i]) + [Line(nl, values[i])]
  {
    var a, b := Lines(nl, values[..i + 1]), Lines(nl, values[..i]) + [Line(nl, values[i])];
    assert |a| == |b|;
    forall j | 0 <= j < |a| ensures a[j] == b[j] {
      if j < i {
        assert values[..i + 1][j] == values[..i][j];
      }
    }
  }

  /** Appending one line to a body that ends with the joined lines. */
  lemma BodySnoc(head: string, lines: seq<string>, line: string)
    ensures head + Join(lines + [line]) == head + Join(lines) + line
  {
    JoinAppend(lines, [line]);
    assert Join([line]) == Join([]) + line;
  }

  /** The pairs kept of a prefix grow by the next pair unless its key is sensitive. */
  lemma FilteredSnoc(values: Pairs, i: nat)
    requires i < |values|
    ensures Filtered(values[..i + 1]) ==
      Filtered(values[..i]) + (if Sensitive(values[i].0) then [] else [values[i]])
  {
    assert values[..i + 1][..i] == values[..i];
  }

  /** One more pair adds its line to the request body, unless its key is sensitive. */
  lemma RequestStep(head: string, nl: string, values: Pairs, i: nat)
    requires i < |values|
    ensures head + Join(Lines(nl, Filtered(values[..i + 1]))) ==
      head + Join(Lines(nl, Filtered(values[..i]))) + (if Sensitive(values[i].0) then "" else Line(nl, values[i]))
  {
    var kept := Filtered(values[..i]);
    FilteredSnoc(values, i);
    if !Sensitive(values[i].0) {
      var more := kept + [values[i]];
      LinesSnoc(nl, more, |kept|);
      assert more[..|kept|] == kept && more[..|kept| + 1] == more;
      BodySnoc(head, Lines(nl, kept), Line(nl, values[i]));
    } else {
      assert kept + [] == kept;
    }
  }

  /**
   * LogRequest: when the gate is passed and the location is not null, the body is built pair by
   * pair and appended to the log file; a null location throws; otherwise nothing is done.
   */
  method LogRequest(logging: Option<bool>, location: Option<NetString>, stamp: string, nl: string, values: Pairs)
    returns (effect: LogEffect)
    ensures effect.Skipped? <==> !PassesGate(logging, location)
    ensures effect.FormatThrew? <==> PassesGate(logging, location) && !Appends(logging, location)
    ensures effect.Appended? <==> Appends(logging, location)
    ensures effect.Appended? ==> effect.body == RequestBody(stamp, nl, values)
  {
    if !EnableLogging(logging) || LogLocation(location) == Some("") {
      return Skipped;
    }
    if LogLocation(location).None? {
      return FormatThrew;
    }
    var head := Header(stamp, "Cardknox Request", nl);
    var body := head;
    for i := 0 to |values|
      invariant body == head + Join(Lines(nl, Filtered(values[..i])))
    {
      RequestStep(head, nl, values, i);
      if !Sensitive(values[i].0) {
        body := body + Line(nl, values[i]);
      }
    }
    assert values[..|values|] == values;
    return Appended(body);
  }

  /** LogResponse: the same gate; every pair is written, and one more newline after them. */
  method LogResponse(logging: Option<bool>, location: Option<NetString>, stamp: string, nl: string, values: Pairs)
    returns (effect: LogEffect)
    ensures effect.Skipped? <==> !PassesGate(logging, location)
    ensures effect.FormatThrew? <==> PassesGate(logging, location) && !Appends(logging, location)
    ensures effect.Appended? <==> Appends(logging, location)
    ensures effect.Appended? ==> effect.body == ResponseBody(stamp, nl, values)
  {
    if !EnableLogging(logging) || LogLocation(location) == Some("") {
      return Skipped;
    }
    if LogLocation(location).None? {
      return FormatThrew;
    }
    var head := Header(stamp, "Cardknox Response", nl);
    var body := head;
    for i := 0 to |values|
      invariant body == head + Join(Lines(nl, values[..i]))
    {
      LinesSnoc(nl, values, i);
      BodySnoc(head, Lines(nl, values[..i]), Line(nl, values[i]));
      body := body + Line(nl, values[i]);
    }
    assert values[..|values|] == values;
    body := body + nl;
    return Appended(body);
  }
}
