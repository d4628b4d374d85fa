/** The configuration-file parser: paragraphs of eight labelled lines, one
    per appliance, each turned into an appliance of the named kind and added
    to the house on the named meter. The file is given as its sequence of
    lines; a line 0 that is always empty is put in front, so that a line's
    index is its line number in the file. */
module FileParser {
  import opened Wrappers
  import opened Text
  import opened Appliance
  import opened Household
  import House
  import CyclicFixed
  import CyclicVaries
  import RandomFixed
  import RandomVaries

  /** Why start() prints a message and exits. */
  datatype ParseError =
    | MissingLine(line: int)             // listLines.get past the last line
    | BadLine(line: int, text: string)   // the line lacks its label
    | BadNumber(text: string)            // NumberFormatException
    | UnknownKind(kind: string, name: string)
    | UnknownMeter(meter: string, name: string)

  /** paragraphFormat: the label each line of a paragraph must contain,
      indexed by the line's place in the paragraph; entry 0 is unused. */
  const Format: seq<string> := [
    "",
    "name:",
    "subclass:",
    "meter:",
    "Min units consumed:",
    "Max units consumed:",
    "Fixed units consumed",
    "Probability switched on:",
    "Cycle length:"
  ]

  /** The subclass line of the first paragraph, the offsets of a paragraph's
      first and last line from it, and the distance between paragraphs. */
  const FirstPosition := 2
  const FirstDistance := -1
  const LastDistance := 6
  const NextDistance := 9

  /** The number of labelled lines in a paragraph. */
  const Width := LastDistance - FirstDistance + 1

  /** convertFileToList: the file's lines behind an empty line 0. */
  function Lines(file: seq<string>): (lines: seq<string>)
    ensures |lines| == |file| + 1 && lines[0] == ""
    ensures forall n :: 1 <= n <= |file| ==> lines[n] == file[n - 1]
  {
    [""] + file
  }

  /** A paragraph format: an unused entry 0, then one non-empty label per
      line of a paragraph. */
  predicate Labelled(format: seq<string>)
  {
    |format| == Width + 1 && forall k :: 1 <= k < |format| ==> |format[k]| > 0
  }

  lemma FormatLabelled()
    ensures Labelled(Format)
  {
  }

  /** Line i of the paragraph whose subclass line is pos, that is line
      pos - 1 + i, must exist and contain label i + 1 of the format; its
      value is what follows the last ": " on it. */
  function CheckLine(lines: seq<string>, pos: nat, i: nat, format: seq<string>): (r: Result<string, ParseError>)
    requires 1 <= pos && i < Width && Labelled(format)
    ensures var n := pos - 1 + i;
      && (r.Ok? <==> n < |lines| && Contains(lines[n], format[i + 1]))
      && (r.Err? ==> r.error == (if n < |lines| then BadLine(n, lines[n]) else MissingLine(n)))
  {
    var n := pos - 1 + i;
    if n >= |lines| then Err(MissingLine(n))
    else if Contains(lines[n], format[i + 1]) then
      ContainsNonEmpty(lines[n], format[i + 1]);
      Ok(Suffix(lines[n]))
    else Err(BadLine(n, lines[n]))
  }

  /** The values of the first k lines of the paragraph whose subclass line is
      pos, or the error at the first line that fails. */
  function Fields(lines: seq<string>, pos: nat, k: nat, format: seq<string>): (r: Result<seq<string>, ParseError>)
    requires 1 <= pos && k <= Width && Labelled(format)
    ensures r.Ok? ==> |r.value| == k
  {
    if k == 0 then Ok([])
    else
      match Fields(lines, pos, k - 1, format)
      case Err(e) => Err(e)
      case Ok(fs) =>
        match CheckLine(lines, pos, k - 1, format)
        case Err(e) => Err(e)
        case Ok(v) => Ok(fs + [v])
  }

  /** The first k lines are accepted exactly when each one is, and then the
      values are those lines' values, in order. */
  lemma {:induction false} FieldsOk(lines: seq<string>, pos: nat, k: nat, format: seq<string>)
    requires 1 <= pos && k <= Width && Labelled(format)
    ensures Fields(lines, pos, k, format).Ok? <==> forall i :: 0 <= i < k ==> CheckLine(lines, pos, i, format).Ok?
    ensures Fields(lines, pos, k, format).Ok? ==>
      forall i :: 0 <= i < k ==> CheckLine(lines, pos, i, format) == Ok(Fields(lines, pos, k, format).value[i])
  {
    if k > 0 {
      FieldsOk(lines, pos, k - 1, format);
    }
  }

  /** A failing paragraph fails at its first bad line: every line before it
      holds its label, and the error names that line (and its text) by its
      index. */
  lemma {:induction false} FieldsFirstError(lines: seq<string>, pos: nat, k: nat, format: seq<string>)
    requires 1 <= pos <= |lines| && k <= Width && Labelled(format) && Fields(lines, pos, k, format).Err?
    ensures var e := Fields(lines, pos, k, format).error;
      && (e.MissingLine? || e.BadLine?)
      && pos - 1 <= e.line <= pos + k - 2
      && (forall i :: 0 <= i < e.line - pos + 1 ==> CheckLine(lines, pos, i, format).Ok?)
      && (e.MissingLine? ==> e.line == |lines|)
      && (e.BadLine? ==> e.line < |lines| && e.text == lines[e.line] && !Contains(e.text, format[e.line - pos + 2]))
  {
    if Fields(lines, pos, k - 1, format).Err? {
      FieldsFirstError(lines, pos, k - 1, format);
    } else {
      FieldsOk(lines, pos, k - 1, format);
      if k >= 2 {
        assert CheckLine(lines, pos, k - 2, format).Ok?;
      }
    }
  }

  /** One more line of a paragraph: it fails as CheckLine says, or adds
      its value behind the others. */
  lemma FieldsNext(lines: seq<string>, pos: nat, k: nat, format: seq<string>, values: seq<string>)
    requires 1 <= pos && k < Width && Labelled(format) && Fields(lines, pos, k, format) == Ok(values)
    ensures var n := pos - 1 + k;
      && (n >= |lines| ==> Fields(lines, pos, k + 1, format) == Err(MissingLine(n)))
      && (n < |lines| && !Contains(lines[n], format[k + 1]) ==>
            Fields(lines, pos, k + 1, format) == Err(BadLine(n, lines[n])))
      && (n < |lines| && Contains(lines[n], format[k + 1]) ==>
            Fields(lines, pos, k + 1, format) == Ok(values + [Suffix(lines[n])]))
  {
  }

  /** Once a line fails, the later lines are not looked at. */
  lemma {:induction false} FieldsErrSticks(lines: seq<string>, pos: nat, k: nat, m: nat, format: seq<string>)
    requires 1 <= pos && k <= m <= Width && Labelled(format) && Fields(lines, pos, k, format).Err?
    ensures Fields(lines, pos, m, format) == Fields(lines, pos, k, format)
    decreases m - k
  {
    if k < m {
      FieldsErrSticks(lines, pos, k, m - 1, format);
    }
  }

  /** A paragraph depends on its own lines pos-1 .. pos+6 only. */
  lemma {:induction false} FieldsLocal(lines: seq<string>, other: seq<string>, pos: nat, k: nat, format: seq<string>)
    requires 1 <= pos && k <= Width && Labelled(format) && pos + k - 2 < |lines| && pos + k - 2 < |other|
    requires forall n :: pos - 1 <= n <= pos + k - 2 ==> lines[n] == other[n]
    ensures Fields(lines, pos, k, format) == Fields(other, pos, k, format)
    decreases k
  {
    if k > 0 {
      FieldsLocal(lines, other, pos, k - 1, format);
    }
  }

  /** The constructor call a paragraph asks for, with its arguments. */
  datatype Blueprint =
    | CyclicFixedOf(name: string, unitsFixed: real, cycleLength: int)
    | CyclicVariesOf(name: string, cycleLength: int, minUnits: real, maxUnits: real)
    | RandomFixedOf(name: string, unitsFixed: real, probability: int)
    | RandomVariesOf(name: string, probability: int, minUnits: real, maxUnits: real)

  /** The state of the appliance the constructor returns. */
  function Initial(b: Blueprint): (v: ApplianceValue)
    ensures v.name == b.name
  {
    match b
    case CyclicFixedOf(n, u, c) => CyclicFixedValue(n, u, CyclicFixed.AcceptedCycle(c), 0)
    case CyclicVariesOf(n, c, _, _) => CyclicVariesValue(n, CyclicFixed.AcceptedCycle(c), 0)
    case RandomFixedOf(n, u, p) => RandomFixedValue(n, u, p)
    case RandomVariesOf(n, p, _, _) => RandomVariesValue(n, p)
  }

  function Float(s: string): (r: Result<real, ParseError>)
    ensures r.Err? <==> ParseFloat(s).None?
    ensures r.Err? ==> r.error == BadNumber(s)
    ensures r.Ok? ==> r.value == ParseFloat(s).value
  {
    match ParseFloat(s)
    case None => Err(BadNumber(s))
    case Some(x) => Ok(x)
  }

  function Integer(s: string): (r: Result<int, ParseError>)
    ensures r.Err? <==> ParseInt(s).None?
    ensures r.Err? ==> r.error == BadNumber(s)
    ensures r.Ok? ==> r.value == ParseInt(s).value
  {
    match ParseInt(s)
    case None => Err(BadNumber(s))
    case Some(n) => Ok(n)
  }

  /** The cycle text is read without its "/24", the probability text
      without its "1 in ". */
  function Cycle(s: string): Result<int, ParseError>
  {
    Integer(RemoveAll(s, "/24"))
  }

  function Probability(s: string): Result<int, ParseError>
  {
    Integer(RemoveAll(s, "1 in "))
  }

  /** The switch of instantiateApplianceFromFile: the subclass decides the
      constructor, whose numeric arguments are parsed left to right; only the
      ones that constructor takes are read. */
  function Build(name: string, kind: string, min: string, max: string, units: string,
                 probability: string, cycle: string): (r: Result<Blueprint, ParseError>)
    ensures r.Ok? ==> r.value.name == name
    ensures r.Err? ==> r.error.BadNumber? || r.error == UnknownKind(kind, name)
  {
    if kind == "CyclicFixed" then
      match Float(units)
      case Err(e) => Err(e)
      case Ok(u) =>
        match Cycle(cycle)
        case Err(e) => Err(e)
        case Ok(c) => Ok(CyclicFixedOf(name, u, c))
    else if kind == "CyclicVaries" then
      match Cycle(cycle)
      case Err(e) => Err(e)
      case Ok(c) =>
        match Float(min)
        case Err(e) => Err(e)
        case Ok(lo) =>
          match Float(max)
          case Err(e) => Err(e)
          case Ok(hi) => Ok(CyclicVariesOf(name, c, lo, hi))
    else if kind == "RandomFixed" then
      match Float(units)
      case Err(e) => Err(e)
      case Ok(u) =>
        match Probability(probability)
        case Err(e) => Err(e)
        case Ok(p) => Ok(RandomFixedOf(name, u, p))
    else if kind == "RandomVaries" then
      match Probability(probability)
      case Err(e) => Err(e)
      case Ok(p) =>
        match Float(min)
        case Err(e) => Err(e)
        case Ok(lo) =>
          match Float(max)
          case Err(e) => Err(e)
          case Ok(hi) => Ok(RandomVariesOf(name, p, lo, hi))
    else Err(UnknownKind(kind, name))
  }

  /** The kind decides which constructor is called and whether the call
      fails before any number is read. */
  lemma BuildKinds(name: string, kind: string, min: string, max: string, units: string,
                   probability: string, cycle: string)
    ensures var r := Build(name, kind, min, max, units, probability, cycle);
      && (r.Err? && r.error.UnknownKind? <==> kind !in {"CyclicFixed", "CyclicVaries", "RandomFixed", "RandomVaries"})
      && (r.Ok? ==> (r.value.CyclicFixedOf? <==> kind == "CyclicFixed"))
      && (r.Ok? ==> (r.value.CyclicVariesOf? <==> kind == "CyclicVaries"))
      && (r.Ok? ==> (r.value.RandomFixedOf? <==> kind == "RandomFixed"))
      && (r.Ok? ==> (r.value.RandomVariesOf? <==> kind == "RandomVaries"))
  {
  }

  /** The switch of addUnknownAppliance. */
  function MeterSide(meter: string, name: string): (r: Result<Side, ParseError>)
    ensures r.Ok? <==> meter == "water" || meter == "electric"
    ensures r.Ok? ==> (r.value == WaterSide <==> meter == "water")
    ensures r.Err? ==> r.error == UnknownMeter(meter, name)
  {
    if meter == "water" then Ok(WaterSide)
    else if meter == "electric" then Ok(ElectricSide)
    else Err(UnknownMeter(meter, name))
  }

  /** A paragraph's values, in Format order, as the appliance and the side it
      is added on: the subclass and the numbers are checked before the meter. */
  function Decide(fs: seq<string>): (r: Result<(Blueprint, Side), ParseError>)
    requires |fs| == Width
    ensures r.Ok? ==> r.value.0.name == fs[0]
    ensures r.Err? ==> r.error.BadNumber? || r.error.UnknownKind? || r.error.UnknownMeter?
  {
    match Build(fs[0], fs[1], fs[3], fs[4], fs[5], fs[6], fs[7])
    case Err(e) => Err(e)
    case Ok(b) =>
      match MeterSide(fs[2], fs[0])
      case Err(e) => Err(e)
      case Ok(s) => Ok((b, s))
  }

  /** The appliances the paragraphs ask for, in file order, up to the first
      error if there is one. */
  datatype Parsed = Parsed(blueprints: seq<(Blueprint, Side)>, error: Option<ParseError>)

  /** What start() does with one paragraph's values once its lines have
      been read. */
  type Decider = seq<string> --> Result<(Blueprint, Side), ParseError>

  /** A decider takes any 8 values. */
  ghost predicate Decides(decide: Decider)
  {
    forall fs: seq<string> :: |fs| == Width ==> decide.requires(fs)
  }

  /** A decider reports no line error: those come from the lines alone. */
  ghost predicate NoLineErrors(decide: Decider)
    requires Decides(decide)
  {
    forall fs: seq<string> :: |fs| == Width && decide(fs).Err? ==>
      !decide(fs).error.BadLine? && !decide(fs).error.MissingLine?
  }

  lemma DecideDecides()
    ensures Decides(Decide) && NoLineErrors(Decide)
  {
  }

  /** One paragraph: its values, then the appliance they ask for. */
  function Read(lines: seq<string>, pos: nat, format: seq<string>, decide: Decider): (r: Result<(Blueprint, Side), ParseError>)
    requires 1 <= pos && Labelled(format) && Decides(decide)
  {
    match Fields(lines, pos, Width, format)
    case Err(e) => Err(e)
    case Ok(fs) => decide(fs)
  }

  /** A paragraph is its lines' values, decided. */
  lemma ReadFields(lines: seq<string>, pos: nat, format: seq<string>, decide: Decider)
    requires 1 <= pos && Labelled(format) && Decides(decide)
    ensures Fields(lines, pos, Width, format).Err? ==> Read(lines, pos, format, decide) == Err(Fields(lines, pos, Width, format).error)
    ensures Fields(lines, pos, Width, format).Ok? ==> Read(lines, pos, format, decide) == decide(Fields(lines, pos, Width, format).value)
  {
  }

  /** A decider that agrees with start()'s own switch on every 8 values. */
  ghost predicate IsSwitch(decide: Decider)
  {
    Decides(decide) && forall fs {:trigger Decide(fs)} :: |fs| == Width ==> decide(fs) == Decide(fs)
  }

  lemma DecideIsSwitch()
    ensures IsSwitch(Decide)
  {
  }

  /** What start()'s loop reads at a subclass line: one appliance, or the
      error that ends the loop. */
  type Reader = nat --> Result<(Blueprint, Side), ParseError>

  ghost predicate Reads(read: Reader)
  {
    forall q: nat :: 1 <= q ==> read.requires(q)
  }

  /** start()'s loop from subclass line pos on, in a file of n lines: it
      runs while pos is a line of the file, 9 lines at a time. */
  function Run(n: nat, pos: nat, read: Reader): (p: Parsed)
    requires 1 <= pos && Reads(read)
    decreases n - pos
  {
    if pos >= n then Parsed([], None)
    else
      match read(pos)
      case Err(e) => Parsed([], Some(e))
      case Ok(b) =>
        var rest := Run(n, pos + NextDistance, read);
        Parsed([b] + rest.blueprints, rest.error)
  }

  /** The paragraphs of lines, read with format and decide. */
  function Reading(lines: seq<string>, format: seq<string>, decide: Decider): (read: Reader)
    requires Labelled(format) && Decides(decide)
    ensures Reads(read)
    ensures forall q: nat :: 1 <= q ==> read(q) == Read(lines, q, format, decide)
  {
    q requires 1 <= q => Read(lines, q, format, decide)
  }

  /** start()'s loop over the lines of a file from subclass line pos on. */
  function Parse(lines: seq<string>, pos: nat, format: seq<string>, decide: Decider): (p: Parsed)
    requires 1 <= pos && Labelled(format) && Decides(decide)
  {
    Run(|lines|, pos, Reading(lines, format, decide))
  }

  /** The subclass line k paragraphs after the one on line pos. */
  function Nth(pos: nat, k: nat): (q: nat)
    ensures q >= pos
    decreases k
  {
    if k == 0 then pos else Nth(pos + NextDistance, k - 1)
  }

  /** The k-th paragraph after pos starts 9k lines further down. */
  lemma {:induction false} NthLine(pos: nat, k: nat)
    ensures Nth(pos, k) == pos + NextDistance * k
    decreases k
  {
    if k > 0 {
      NthLine(pos + NextDistance, k - 1);
    }
  }

  /** One more paragraph is 9 more lines. */
  lemma {:induction false} NthNext(pos: nat, k: nat)
    ensures Nth(pos, k + 1) == Nth(pos, k) + NextDistance
    decreases k
  {
    if k > 0 {
      NthNext(pos + NextDistance, k - 1);
    }
  }

  /** One paragraph either stops the loop with its error or contributes its
      appliance ahead of those from 9 lines further down. */
  lemma RunStep(n: nat, pos: nat, read: Reader)
    requires 1 <= pos < n && Reads(read)
    ensures var r, rest := read(pos), Run(n, pos + NextDistance, read);
      Run(n, pos, read) == if r.Err? then Parsed([], Some(r.error)) else Parsed([r.value] + rest.blueprints, rest.error)
  {
  }

  /** Past an appliance, the loop goes on at the next subclass line. */
  lemma RunNext(n: nat, pos: nat, read: Reader)
    requires 1 <= pos && Reads(read) && |Run(n, pos, read).blueprints| > 0
    ensures var p, r := Run(n, pos, read), Run(n, pos + NextDistance, read);
      && pos < n && read(pos) == Ok(p.blueprints[0])
      && p.blueprints == [p.blueprints[0]] + r.blueprints && p.error == r.error
  {
  }

  /** The i-th appliance comes from the paragraph whose subclass line is
      pos + 9i. */
  lemma {:induction false} RunAt(n: nat, pos: nat, read: Reader, i: nat)
    requires 1 <= pos && Reads(read) && i < |Run(n, pos, read).blueprints|
    ensures Nth(pos, i) < n
    ensures read(Nth(pos, i)) == Ok(Run(n, pos, read).blueprints[i])
    decreases i
  {
    RunNext(n, pos, read);
    if i > 0 {
      RunAt(n, pos + NextDistance, read, i - 1);
    }
  }

  /** The loop stops at the subclass line 9 lines past the last appliance's,
      with the error of that paragraph if there is one. */
  lemma {:induction false} RunEnd(n: nat, pos: nat, read: Reader)
    requires 1 <= pos && Reads(read)
    ensures var q := Nth(pos, |Run(n, pos, read).blueprints|);
      && Run(n, q, read).blueprints == []
      && Run(n, q, read).error == Run(n, pos, read).error
    decreases n - pos
  {
    if |Run(n, pos, read).blueprints| > 0 {
      RunNext(n, pos, read);
      RunEnd(n, pos + NextDistance, read);
    }
  }

  /** An error that stops the loop at once is the error of the paragraph
      there. */
  lemma RunStops(n: nat, pos: nat, read: Reader)
    requires 1 <= pos && Reads(read)
    requires Run(n, pos, read).blueprints == [] && Run(n, pos, read).error.Some?
    ensures pos < n && read(pos) == Err(Run(n, pos, read).error.value)
  {
  }

  /** Where the loop stands after k appliances: the k-th paragraph gives
      the next one, or, once all are read, the loop either stops at the end
      of the file without error or at a paragraph whose error is the run's. */
  lemma RunFrom(n: nat, p0: nat, read: Reader, k: nat)
    requires 1 <= p0 && Reads(read) && k <= |Run(n, p0, read).blueprints|
    ensures var p, q := Run(n, p0, read), Nth(p0, k);
      && (k < |p.blueprints| ==> q < n && read(q) == Ok(p.blueprints[k]))
      && (k == |p.blueprints| && q < n ==> read(q).Err? && p.error == Some(read(q).error))
      && (k == |p.blueprints| && q >= n ==> p.error == None)
  {
    if k < |Run(n, p0, read).blueprints| {
      RunAt(n, p0, read, k);
    } else {
      RunEnd(n, p0, read);
      var q := Nth(p0, k);
      if q < n {
        RunStep(n, q, read);
      }
    }
  }

  /** A line error of a paragraph is the error of its lines. */
  lemma ReadLineError(lines: seq<string>, pos: nat, format: seq<string>, decide: Decider)
    requires 1 <= pos && Labelled(format) && Decides(decide) && NoLineErrors(decide) && Read(lines, pos, format, decide).Err?
    requires Read(lines, pos, format, decide).error.BadLine? || Read(lines, pos, format, decide).error.MissingLine?
    ensures Fields(lines, pos, Width, format) == Err(Read(lines, pos, format, decide).error)
  {
  }

  /** Every line error the parser reports on a file names a line of that
      file by its line number, counting from 1, with that line's text, or
      names the first line past the end. */
  lemma ParseErrorLine(file: seq<string>, format: seq<string>, decide: Decider)
    requires Labelled(format) && Decides(decide) && NoLineErrors(decide)
    ensures var e := Parse(Lines(file), FirstPosition, format, decide).error;
      && (e.Some? && e.value.BadLine? ==> 1 <= e.value.line <= |file| && e.value.text == file[e.value.line - 1])
      && (e.Some? && e.value.MissingLine? ==> e.value.line == |file| + 1)
  {
    var lines := Lines(file);
    var p := Parse(lines, FirstPosition, format, decide);
    if p.error.Some? && (p.error.value.BadLine? || p.error.value.MissingLine?) {
      var read := Reading(lines, format, decide);
      RunEnd(|lines|, FirstPosition, read);
      var q := Nth(FirstPosition, |p.blueprints|);
      RunStops(|lines|, q, read);
      ReadLineError(lines, q, format, decide);
      FieldsFirstError(lines, q, Width, format);
    }
  }

  /** A paragraph file as an appliance-list writer would lay it out: each
      value behind its label and ": ", and one separating line. */
  function Paragraph(fs: seq<string>, format: seq<string>): (ls: seq<string>)
    requires |fs| == Width && Labelled(format)
    ensures |ls| == NextDistance
  {
    (seq(Width, j requires 0 <= j < Width => format[j + 1] + ": " + fs[j])) + [""]
  }

  function Concat(ps: seq<seq<string>>, format: seq<string>): (ls: seq<string>)
    requires forall i :: 0 <= i < |ps| ==> |ps[i]| == Width
    requires Labelled(format)
    ensures |ls| == NextDistance * |ps|
  {
    if |ps| == 0 then [] else Paragraph(ps[0], format) + Concat(ps[1..], format)
  }

  /** Values without ": " in them. */
  predicate Plain(fs: seq<string>)
  {
    forall j :: 0 <= j < |fs| ==> !Contains(fs[j], ": ")
  }

  /** A laid-out paragraph gives back its values, whatever surrounds it. */
  lemma ParagraphFields(pre: seq<string>, fs: seq<string>, post: seq<string>, format: seq<string>)
    requires |fs| == Width && Plain(fs) && Labelled(format)
    ensures Fields(pre + Paragraph(fs, format) + post, |pre| + 1, Width, format) == Ok(fs)
  {
    var lines := pre + Paragraph(fs, format) + post;
    var pos := |pre| + 1;
    forall i | 0 <= i < Width
      ensures CheckLine(lines, pos, i, format) == Ok(fs[i])
    {
      assert lines[pos - 1 + i] == Paragraph(fs, format)[i];
      assert IsPrefix(format[i + 1], format[i + 1] + ": " + fs[i]);
      SuffixOfLabelled(format[i + 1], fs[i]);
    }
    FieldsOk(lines, pos, Width, format);
    var r := Fields(lines, pos, Width, format);
    assert forall i :: 0 <= i < Width ==> r.value[i] == fs[i] by {
      forall i | 0 <= i < Width
        ensures r.value[i] == fs[i]
      {
        assert CheckLine(lines, pos, i, format) == Ok(fs[i]);
      }
    }
    assert r.Ok?;
    assert r.value == fs;
  }

  /** A file laid out from paragraphs whose values all decide parses to
      those appliances, in order, without error. */
  lemma {:induction false} ParseConcat(pre: seq<string>, ps: seq<seq<string>>, format: seq<string>, decide: Decider)
    requires Labelled(format) && Decides(decide)
    requires forall i :: 0 <= i < |ps| ==> |ps[i]| == Width && Plain(ps[i]) && decide(ps[i]).Ok?
    ensures Parse(pre + Concat(ps, format), |pre| + 1, format, decide) ==
      Parsed(seq(|ps|, i requires 0 <= i < |ps| => decide(ps[i]).value), None)
    decreases |ps|
  {
    if |ps| > 0 {
      var lines := pre + Concat(ps, format);
      var pre' := pre + Paragraph(ps[0], format);
      assert lines == pre' + Concat(ps[1..], format);
      ParagraphFields(pre, ps[0], Concat(ps[1..], format), format);
      ParseCons(lines, |pre| + 1, format, decide, ps[0]);
      ParseConcat(pre', ps[1..], format, decide);
      var all := seq(|ps|, i requires 0 <= i < |ps| => decide(ps[i]).value);
      var tail := seq(|ps| - 1, i requires 0 <= i < |ps| - 1 => decide(ps[1..][i]).value);
      assert [all[0]] + tail == all;
    }
  }

  /** A paragraph whose lines and values are accepted contributes its
      appliance, and the loop goes on 9 lines further down. */
  lemma ParseCons(lines: seq<string>, pos: nat, format: seq<string>, decide: Decider, fs: seq<string>)
    requires 1 <= pos < |lines| && Labelled(format) && Decides(decide)
    requires Fields(lines, pos, Width, format) == Ok(fs) && decide(fs).Ok?
    ensures var rest := Parse(lines, pos + NextDistance, format, decide);
      Parse(lines, pos, format, decide) == Parsed([decide(fs).value] + rest.blueprints, rest.error)
  {
  }

  /** The whole file, from the first subclass line on line 2, read with
      start()'s own format and switch. */
  lemma ParseFile(ps: seq<seq<string>>)
    requires forall i :: 0 <= i < |ps| ==> |ps[i]| == Width && Plain(ps[i]) && Decide(ps[i]).Ok?
    ensures Labelled(Format) && Decides(Decide)
    ensures Parse(Lines(Concat(ps, Format)), FirstPosition, Format, Decide) ==
      Parsed(seq(|ps|, i requires 0 <= i < |ps| => Decide(ps[i]).value), None)
  {
    FormatLabelled();
    DecideDecides();
    ParseConcat([""], ps, Format, Decide);
  }

  /** Typical values: a whole number of units and an hour count "n/24". */
  lemma CyclicFixedParagraph(name: string, meter: string, units: nat, cycle: nat)
    requires meter == "water" || meter == "electric"
    requires cycle <= IntMax
    ensures var fs := [name, "CyclicFixed", meter, "-", "-", ShowNat(units), "-", ShowNat(cycle) + "/24"];
      Decide(fs).Ok? && Decide(fs).value.0 == CyclicFixedOf(name, units as real, cycle) &&
      Decide(fs).value.1 == (if meter == "water" then WaterSide else ElectricSide)
  {
    ParseFloatShowInt(units);
    ShowIntOfNat(cycle);
    ParseIntShowNat(ShowNat(cycle), cycle);
  }

  /** A probability written "1 in n". */
  lemma RandomFixedParagraph(name: string, meter: string, units: nat, probability: nat)
    requires meter == "water" || meter == "electric"
    requires probability <= IntMax
    ensures var fs := [name, "RandomFixed", meter, "-", "-", ShowNat(units), "1 in " + ShowNat(probability), "-"];
      Decide(fs).Ok? && Decide(fs).value.0 == RandomFixedOf(name, units as real, probability)
  {
    ParseFloatShowInt(units);
    var d := ShowNat(probability);
    ContainsHasChars(d, "1 in ", 1);
    assert ' ' !in d;
    RemoveAllLeading(d, "1 in ");
    ParseIntShow(probability);
  }

  lemma ShowIntOfNat(n: nat)
    ensures ShowInt(n) == ShowNat(n)
  {
  }

  /** The digits of a cycle written "n/24" are read back as n. */
  lemma ParseIntShowNat(d: string, n: nat)
    requires d == ShowNat(n)
    ensures n <= IntMax ==> Cycle(d + "/24") == Ok(n)
    ensures RemoveAll(d + "/24", "/24") == d
  {
    assert '/' !in d;
    RemoveAllTrailing(d, "/24");
    if n <= IntMax {
      ParseIntShow(n);
    }
  }

  /** Where start()'s loop stands after k appliances, in terms of the
      paragraphs of the file. */
  lemma ParseFrom(lines: seq<string>, p0: nat, format: seq<string>, decide: Decider, k: nat)
    requires 1 <= p0 && Labelled(format) && Decides(decide)
    requires k <= |Parse(lines, p0, format, decide).blueprints|
    ensures var p, q := Parse(lines, p0, format, decide), Nth(p0, k);
      && (k < |p.blueprints| ==> q < |lines| && Read(lines, q, format, decide) == Ok(p.blueprints[k]))
      && (k == |p.blueprints| && q < |lines| ==>
            Read(lines, q, format, decide).Err? && p.error == Some(Read(lines, q, format, decide).error))
      && (k == |p.blueprints| && q >= |lines| ==> p.error == None)
  {
    RunFrom(|lines|, p0, Reading(lines, format, decide), k);
  }

  /** The new house: the appliances added one after the other, each in the
      state its constructor gives and on the side its paragraph names. */
  ghost function AddAll(h: HouseState, apps: seq<Appliance>, bps: seq<(Blueprint, Side)>): (g: HouseState)
    requires |apps| == |bps|
    ensures g.list == h.list + apps
    ensures g.water == h.water && g.electric == h.electric && g.battery == h.battery
  {
    if |apps| == 0 then h
    else
      var n := |apps| - 1;
      Added(AddAll(h, apps[..n], bps[..n]), apps[n], Initial(bps[n].0), bps[n].1)
  }

  /** Adding the appliance of paragraph k to those of the first k. */
  lemma AddAllExtend(h: HouseState, apps: seq<Appliance>, bps: seq<(Blueprint, Side)>, a: Appliance)
    requires |apps| < |bps|
    ensures var k := |apps|;
      AddAll(h, apps + [a], bps[..k + 1]) == Added(AddAll(h, apps, bps[..k]), a, Initial(bps[k].0), bps[k].1)
  {
    var k := |apps|;
    assert (apps + [a])[..k] == apps && bps[..k + 1][..k] == bps[..k];
  }

  /** Appliances that are new to a house get exactly their paragraph's
      state and side. */
  lemma {:induction false} AddAllStates(h: HouseState, apps: seq<Appliance>, bps: seq<(Blueprint, Side)>, i: nat)
    requires |apps| == |bps| && i < |apps|
    requires forall j :: 0 <= j < |apps| && j != i ==> apps[j] != apps[i]
    ensures apps[i] in AddAll(h, apps, bps).value && apps[i] in AddAll(h, apps, bps).side
    ensures AddAll(h, apps, bps).value[apps[i]] == Initial(bps[i].0)
    ensures AddAll(h, apps, bps).side[apps[i]] == bps[i].1
  {
    var n := |apps| - 1;
    if i < n {
      AddAllStates(h, apps[..n], bps[..n], i);
    }
  }

  class FileParser {
    const house: House.House
    /** The file's lines, standing for the file the Java class reads. */
    const configuration: seq<string>
    /** SUBCLASS_PROPERTY_POSITION: the subclass line of the next paragraph. */
    var position: nat
    /** The values of the paragraph last read, at indices 1 .. 8. */
    const properties: array<string>
    /** The label each line of a paragraph must contain. */
    const paragraphFormat: seq<string>
    /** The switch of start() on a paragraph's values, as a value the proofs
        can pass around. */
    ghost const decide: Decider

    ghost predicate Valid()
      reads this, house
    {
      && position >= 1 && properties.Length == Width + 1 && {properties, this} !! house.objs
      && Labelled(paragraphFormat) && IsSwitch(decide)
    }

    constructor (house: House.House, configuration: seq<string>)
      ensures Valid() && this.house == house && this.configuration == configuration
      ensures position == FirstPosition && paragraphFormat == Format && decide == Decide && fresh(properties)
    {
      FormatLabelled();
      DecideIsSwitch();
      paragraphFormat := Format;
      decide := Decide;
      this.house := house;
      this.configuration := configuration;
      position := FirstPosition;
      properties := new string[Width + 1](_ => "");
    }

    /** One step of parseList: line pos + d must exist and hold its label;
        its value is what follows the last ": ". */
    static method ParseLine(lines: seq<string>, pos: nat, d: int, format: seq<string>) returns (r: Result<string, ParseError>)
      requires 1 <= pos && FirstDistance <= d <= LastDistance && Labelled(format)
      ensures r == CheckLine(lines, pos, d + 1, format)
    {
      var lineFormat := format[d + 2];
      if pos + d >= |lines| {
        return Err(MissingLine(pos + d));
      }
      var lineFile := lines[pos + d];
      if Contains(lineFile, lineFormat) {
        ContainsNonEmpty(lineFile, lineFormat);
        return Ok(Suffix(lineFile));
      }
      return Err(BadLine(pos + d, lineFile));
    }

    /** The body of parseList's loop: line pos + d checked and, when it holds
        its label, its value stored as property d + 2. */
    method StoreLine(lines: seq<string>, pos: nat, d: int, format: seq<string>, ghost values: seq<string>)
      returns (r: Result<string, ParseError>)
      requires 1 <= pos && FirstDistance <= d <= LastDistance && Labelled(format) && properties.Length == Width + 1
      requires Fields(lines, pos, d + 1, format) == Ok(values)
      modifies properties
      ensures r.Err? ==> Fields(lines, pos, d + 2, format) == Err(r.error) && properties[..] == old(properties[..])
      ensures r.Ok? ==> Fields(lines, pos, d + 2, format) == Ok(values + [r.value])
      ensures r.Ok? ==> properties[..] == old(properties[..])[d + 2 := r.value]
    {
      r := ParseLine(lines, pos, d, format);
      if r.Ok? {
        properties[d + 2] := r.value;
      }
    }

    /** parseList: the lines of the paragraph at position, each checked
        against its label, the values written into properties[1..8]. */
    method ParseList(lines: seq<string>, format: seq<string>) returns (o: Outcome<ParseError>)
      requires position >= 1 && properties.Length == Width + 1 && Labelled(format)
      modifies properties
      ensures o.Fail? <==> Fields(lines, position, Width, format).Err?
      ensures o.Fail? ==> o.error == Fields(lines, position, Width, format).error
      ensures o.Pass? ==> properties[1..] == Fields(lines, position, Width, format).value
      ensures properties[0] == old(properties[0])
    {
      var pos := position;
      var currentLineParsed := 1;
      ghost var values: seq<string> := [];
      for d := FirstDistance to LastDistance + 1
        invariant currentLineParsed == d + 2 && |values| == currentLineParsed - 1
        invariant Fields(lines, pos, currentLineParsed - 1, format) == Ok(values)
        invariant forall j :: 1 <= j < currentLineParsed ==> properties[j] == values[j - 1]
        invariant properties[0] == old(properties[0])
      {
        var r := StoreLine(lines, pos, d, format, values);
        if r.Err? {
          FieldsErrSticks(lines, pos, currentLineParsed, Width, format);
          return Fail(r.error);
        }
        values := values + [r.value];
        currentLineParsed := currentLineParsed + 1;
      }
      assert properties[1..] == values;
      return Pass;
    }

    /** The constructor call of a blueprint. */
    static method Construct(b: Blueprint) returns (a: Appliance)
      ensures fresh(a.Obj()) && a.Value() == Initial(b) && a.MeterOf() == null
    {
      match b
      case CyclicFixedOf(n, u, c) =>
        var x := new CyclicFixed.CyclicFixed(n, u, c);
        a := CF(x);
      case CyclicVariesOf(n, c, lo, hi) =>
        var x := new CyclicVaries.CyclicVaries(n, c, lo, hi);
        a := CV(x);
      case RandomFixedOf(n, u, p) =>
        var x := new RandomFixed.RandomFixed(n, u, p);
        a := RF(x);
      case RandomVariesOf(n, p, lo, hi) =>
        var x := new RandomVaries.RandomVaries(n, p, lo, hi);
        a := RV(x);
    }

    /** addUnknownAppliance: add on the water or the electric meter, or fail
        and leave the house as it was. */
    method AddUnknownAppliance(a: Appliance, meter: string) returns (o: Outcome<ParseError>)
      requires house.Valid()
      modifies house`appliances, house`objs, house`values, house`sides, a.Obj()
      ensures house.Valid()
      ensures o.Fail? <==> MeterSide(meter, a.Name()).Err?
      ensures o.Fail? ==> o.error == MeterSide(meter, a.Name()).error && house.Model() == old(house.Model()) && house.objs == old(house.objs)
      ensures o.Pass? ==> (house.objs == old(house.objs) + {a.Obj()} &&
        house.Model() == Added(old(house.Model()), a, old(a.Value()), MeterSide(meter, a.Name()).value))
    {
      if meter == "water" {
        house.AddWaterAppliance(a);
      } else if meter == "electric" {
        house.AddElectricAppliance(a);
      } else {
        return Fail(UnknownMeter(meter, a.Name()));
      }
      return Pass;
    }

    /** instantiateApplianceFromFile: build the appliance the paragraph
        names and add it to the house, or fail with the house unchanged. */
    method InstantiateApplianceFromFile(fs: seq<string>) returns (o: Outcome<ParseError>, ghost a: Option<Appliance>)
      requires house.Valid() && |fs| == Width && IsSwitch(decide)
      modifies house`appliances, house`objs, house`values, house`sides
      ensures house.Valid()
      ensures o.Fail? <==> decide(fs).Err?
      ensures o.Fail? ==> o.error == decide(fs).error && house.Model() == old(house.Model()) && house.objs == old(house.objs)
      ensures o.Pass? ==> (a.Some? && fresh(a.value.Obj()) && house.objs == old(house.objs) + {a.value.Obj()} &&
        house.Model() == Added(old(house.Model()), a.value, Initial(decide(fs).value.0), decide(fs).value.1))
    {
      assert decide(fs) == Decide(fs);
      var b := Build(fs[0], fs[1], fs[3], fs[4], fs[5], fs[6], fs[7]);
      if b.Err? {
        return Fail(b.error), None;
      }
      ghost var model := house.Model();
      ghost var side := MeterSide(fs[2], fs[0]);
      assert Decide(fs) == if side.Err? then Err(side.error) else Ok((b.value, side.value));
      var x := Construct(b.value);
      assert house.Model() == model;
      o := AddUnknownAppliance(x, fs[2]);
      a := Some(x);
    }

    /** One pass of start()'s loop without the move to the next paragraph:
        parseList, then instantiateApplianceFromFile on the values read. */
    method ReadParagraph(lines: seq<string>) returns (o: Outcome<ParseError>, ghost a: Option<Appliance>)
      requires Valid() && house.Valid() && position < |lines|
      modifies properties, house`appliances, house`objs, house`values, house`sides
      ensures Valid() && house.Valid()
      ensures var r := Read(lines, position, paragraphFormat, decide);
        && (o.Fail? <==> r.Err?)
        && (o.Fail? ==> o.error == r.error && house.Model() == old(house.Model()))
        && (o.Pass? ==>
              a.Some? && fresh(a.value.Obj()) &&
              house.Model() == Added(old(house.Model()), a.value, Initial(r.value.0), r.value.1))
    {
      ghost var model := house.Model();
      o := ParseList(lines, paragraphFormat);
      assert house.Model() == model;
      if o.Fail? {
        ReadFields(lines, position, paragraphFormat, decide);
        return o, None;
      }
      var fs := properties[1..];
      ReadFields(lines, position, paragraphFormat, decide);
      o, a := InstantiateApplianceFromFile(fs);
    }

    /** One pass of start()'s loop, with the run p of the whole loop as the
        guide: the paragraph at position is the next one of p, and it either
        adds the next appliance and moves on 9 lines, or ends the run with
        p's error. */
    method NextParagraph(lines: seq<string>, ghost p0: nat, ghost h0: HouseState, ghost p: Parsed,
                         ghost added: seq<Appliance>)
      returns (o: Outcome<ParseError>, ghost added': seq<Appliance>)
      requires Valid() && house.Valid() && position < |lines| && 1 <= p0
      requires p == Parse(lines, p0, paragraphFormat, decide)
      requires |added| <= |p.blueprints| && position == Nth(p0, |added|)
      requires house.Model() == AddAll(h0, added, p.blueprints[..|added|])
      modifies properties, house`appliances, house`objs, house`values, house`sides
      ensures Valid() && house.Valid()
      ensures o.Fail? ==> && |added| == |p.blueprints| && p.error == Some(o.error)
                          && added' == added && house.Model() == AddAll(h0, added, p.blueprints)
      ensures o.Pass? ==> && |added| < |p.blueprints| && |added'| == |added| + 1 && added' == added + [added'[|added|]]
                          && fresh(added'[|added|].Obj()) && Nth(p0, |added'|) == position + NextDistance
                          && house.Model() == AddAll(h0, added', p.blueprints[..|added'|])
    {
      ParseFrom(lines, p0, paragraphFormat, decide, |added|);
      ghost var r := Read(lines, position, paragraphFormat, decide);
      ghost var before := house.Model();
      ghost var a;
      o, a := ReadParagraph(lines);
      if o.Fail? {
        assert p.blueprints[..|added|] == p.blueprints;
        return o, added;
      }
      ghost var b := p.blueprints[|added|];
      assert r == Ok(b);
      ghost var after := house.Model();
      assert after == Added(before, a.value, Initial(b.0), b.1);
      AddAllExtend(h0, added, p.blueprints, a.value);
      NthNext(p0, |added|);
      added' := added + [a.value];
      assert after == AddAll(h0, added', p.blueprints[..|added| + 1]);
    }

    /** SUBCLASS_PROPERTY_POSITION += 9: on to the next paragraph's subclass
        line, and nothing else changes. */
    method MoveOn(ghost h: HouseState)
      requires Valid() && house.Valid() && house.Model() == h
      modifies this`position
      ensures Valid() && house.Valid() && house.Model() == h && position == old(position) + NextDistance
    {
      position := position + NextDistance;
    }

    /** start(): the paragraphs from position on, one every nine lines while
        position is a line of the file; the first error ends the run. */
    method Start() returns (o: Outcome<ParseError>, ghost added: seq<Appliance>)
      requires Valid() && house.Valid()
      modifies this`position, properties, house`appliances, house`objs, house`values, house`sides
      ensures Valid() && house.Valid()
      ensures var p := Parse(Lines(configuration), old(position), paragraphFormat, decide);
        && (o.Fail? <==> p.error.Some?) && (o.Fail? ==> o.error == p.error.value)
        && |added| == |p.blueprints| && house.Model() == AddAll(old(house.Model()), added, p.blueprints)
      ensures forall i :: 0 <= i < |added| ==> fresh(added[i].Obj())
    {
      var listLines := Lines(configuration);
      ghost var h0 := house.Model();
      ghost var p0 := position;
      ghost var p := Parse(listLines, p0, paragraphFormat, decide);
      added := [];
      while position < |listLines|
        invariant Valid() && house.Valid()
        invariant |added| <= |p.blueprints| && position == Nth(p0, |added|)
        invariant house.Model() == AddAll(h0, added, p.blueprints[..|added|])
        invariant forall i :: 0 <= i < |added| ==> fresh(added[i].Obj())
        decreases |listLines| - position
      {
        ghost var before := added;
        o, added := NextParagraph(listLines, p0, h0, p, added);
        if o.Fail? {
          return;
        }
        MoveOn(house.Model());
        forall i | 0 <= i < |added|
          ensures fresh(added[i].Obj())
        {
          if i < |before| {
            assert added[i] == added[..|before|][i];
            assert fresh(before[i].Obj());
          } else {
            assert i == |before|;
          }
        }
      }
      ParseFrom(listLines, p0, paragraphFormat, decide, |added|);
      assert p.blueprints[..|added|] == p.blueprints;
      o := Pass;
    }
  }
}
