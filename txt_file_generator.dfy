/** The plain-text contract export: six labelled lines. */
module TxtFileGenerator {
  import opened Common
  import opened Dtos
  import opened Strings
  import opened Rendering

  /** The line labels, in print order. */
  const Labels: seq<string> :=
    ["Contract ID: ", "Start Date: ", "Duration: ", "Details: ", "User ID: ", "Property ID: "]

  /** One printed line: a tag, its field and a line break. */
  function Line(tag: string, field: string): string {
    tag + field + "\n"
  }

  /** The text the exporter builds: the six labelled lines in order. */
  function Content(c: ContractDto, r: Renderer): string {
    var f := ContractFields(c, r);
    Line("Contract ID: ", f[0]) + Line("Start Date: ", f[1]) + Line("Duration: ", f[2]) +
    Line("Details: ", f[3]) + Line("User ID: ", f[4]) + Line("Property ID: ", f[5])
  }

  /** Line i without its terminator: tag i followed by field i. */
  function Lines(c: ContractDto, r: Renderer): (ls: seq<string>)
    ensures |ls| == 6
    ensures forall i :: 0 <= i < 6 ==> ls[i] == Labels[i] + ContractFields(c, r)[i]
  {
    var f := ContractFields(c, r);
    seq(6, i requires 0 <= i < 6 => Labels[i] + f[i])
  }

  /** Each line followed by a line break. */
  function Terminated(ls: seq<string>): string {
    if ls == [] then "" else ls[0] + "\n" + Terminated(ls[1..])
  }

  /** One `append(tag).append(field).append("\n")` chain. */
  method AppendLine(content: TextBuffer, tag: string, field: string)
    modifies content
    ensures content.content == old(content.content) + Line(tag, field)
  {
    content.Append(tag);
    content.Append(field);
    content.Append("\n");
  }

  /** `generateFile`: append the six labelled lines to a fresh buffer. */
  method GenerateFile(c: ContractDto, r: Renderer) returns (bytes: string)
    ensures bytes == Content(c, r)
  {
    var f := ContractFields(c, r);
    var content := new TextBuffer();
    AppendLine(content, "Contract ID: ", f[0]);
    assert content.content == Line("Contract ID: ", f[0]);
    AppendLine(content, "Start Date: ", f[1]);
    assert content.content == Line("Contract ID: ", f[0]) + Line("Start Date: ", f[1]);
    AppendLine(content, "Duration: ", f[2]);
    AppendLine(content, "Details: ", f[3]);
    AppendLine(content, "User ID: ", f[4]);
    AppendLine(content, "Property ID: ", f[5]);
    bytes := content.content;
  }

  lemma {:induction false} TerminatedIsJoin(ls: seq<string>)
    ensures Terminated(ls) == Join(ls + [""], '\n')
  {
    if ls != [] {
      TerminatedIsJoin(ls[1..]);
      assert (ls + [""])[1..] == ls[1..] + [""];
      assert ls[0] + "\n" + Terminated(ls[1..]) == ls[0] + ['\n'] + Terminated(ls[1..]);
    } else {
      assert ls + [""] == [""];
    }
  }

  lemma {:induction false} TerminatedLength(ls: seq<string>)
    ensures |Terminated(ls)| == SumLength(ls) + |ls|
  {
    if ls != [] {
      TerminatedLength(ls[1..]);
    }
  }

  /** The export is exactly the six lines, each terminated by a line break. */
  lemma ContentIsSixLines(c: ContractDto, r: Renderer)
    ensures Content(c, r) == Terminated(Lines(c, r))
  {
    var ls := Lines(c, r);
    var f := ContractFields(c, r);
    var p0 := Line(Labels[0], f[0]);
    var p1 := p0 + Line(Labels[1], f[1]);
    var p2 := p1 + Line(Labels[2], f[2]);
    var p3 := p2 + Line(Labels[3], f[3]);
    var p4 := p3 + Line(Labels[4], f[4]);
    var p5 := p4 + Line(Labels[5], f[5]);
    assert ls[0..] == ls;
    PrefixStep(ls, "", 0);
    assert "" + Line(Labels[0], f[0]) == p0;
    PrefixStep(ls, p0, 1);
    PrefixStep(ls, p1, 2);
    PrefixStep(ls, p2, 3);
    PrefixStep(ls, p3, 4);
    PrefixStep(ls, p4, 5);
    assert ls[6..] == [];
    assert p5 + Terminated(ls[6..]) == p5;
  }

  /** Moving line k from the unprinted suffix onto the printed prefix. */
  lemma PrefixStep(ls: seq<string>, p: string, k: nat)
    requires k < |ls|
    ensures p + Terminated(ls[k..]) == (p + (ls[k] + "\n")) + Terminated(ls[k + 1..])
  {
    assert ls[k..][1..] == ls[k + 1..];
  }

  /** When neither the renderings nor the details contain a line break, splitting
      the export at line breaks gives the six lines and an empty tail: exactly six
      terminated lines, line i being tag i then field i. */
  lemma SplitIntoLines(c: ContractDto, r: Renderer)
    requires RendersWithout(r, '\n') && '\n' !in c.details
    ensures Split(Content(c, r), '\n') == Lines(c, r) + [""]
    ensures Count(Content(c, r), '\n') == 6
  {
    var ls := Lines(c, r);
    ContentIsSixLines(c, r);
    TerminatedIsJoin(ls);
    FieldsWithout(c, r, '\n');
    forall i | 0 <= i < |ls + [""]|
      ensures '\n' !in (ls + [""])[i]
    {
      if i < 6 {
        assert '\n' !in Labels[i];
        assert '\n' !in ContractFields(c, r)[i];
        assert ls[i] == Labels[i] + ContractFields(c, r)[i];
      }
    }
    SplitJoin(ls + [""], '\n');
  }

  /** The export's length is the tag lengths plus the field lengths plus six line breaks. */
  lemma ContentLength(c: ContractDto, r: Renderer)
    ensures |Content(c, r)| == SumLength(Labels) + SumLength(ContractFields(c, r)) + 6
  {
    var ls := Lines(c, r);
    ContentIsSixLines(c, r);
    TerminatedLength(ls);
    SumLengthPairwise(Labels, ContractFields(c, r), ls);
  }

  lemma {:induction false} SumLengthPairwise(a: seq<string>, b: seq<string>, ab: seq<string>)
    requires |a| == |b| == |ab|
    requires forall i :: 0 <= i < |ab| ==> ab[i] == a[i] + b[i]
    ensures SumLength(ab) == SumLength(a) + SumLength(b)
  {
    if ab != [] {
      SumLengthPairwise(a[1..], b[1..], ab[1..]);
    }
  }
}
