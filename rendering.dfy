/** What the contract exporters print for each field, and the buffer they print into. */
module Rendering {
  import opened Common
  import opened Dtos
  import opened Strings

  /** The `toString` renderings of `UUID` and `LocalDateTime`. Their exact text
      is the JDK's business, so the model takes them as parameters. */
  datatype Renderer = Renderer(uuid: Uuid -> string, dateTime: DateTime -> string)

  /** String concatenation of a possibly absent start date: "null" when absent. */
  function StartDateText(r: Renderer, d: Option<DateTime>): string {
    match d
    case None => "null"
    case Some(t) => r.dateTime(t)
  }

  /** The six exported fields in the order the exporters print them: contract id,
      start date, duration, details, user id, property id. */
  function ContractFields(c: ContractDto, r: Renderer): seq<string> {
    [r.uuid(c.id), StartDateText(r, c.startDate), IntToString(c.duration),
     c.details, r.uuid(c.userId), r.uuid(c.propertyId)]
  }

  /** No rendering of an identifier or of a date contains `ch`. */
  ghost predicate RendersWithout(r: Renderer, ch: char) {
    (forall u :: ch !in r.uuid(u)) && (forall t :: ch !in r.dateTime(t))
  }

  /** The two separators of the exports, the comma and the line break; a decimal
      rendering and the word "null" contain neither. */
  predicate IsSeparator(ch: char) {
    ch == ',' || ch == '\n'
  }

  /** When the renderings avoid a separator, only the free-text details can hold it. */
  lemma FieldsWithout(c: ContractDto, r: Renderer, ch: char)
    requires RendersWithout(r, ch) && IsSeparator(ch)
    ensures forall i :: 0 <= i < 6 && i != 3 ==> ch !in ContractFields(c, r)[i]
    ensures ContractFields(c, r)[3] == c.details
  {
    var d := IntToString(c.duration);
    assert forall k :: 0 <= k < |d| ==> d[k] != ch;
    assert ch !in StartDateText(r, c.startDate);
  }

  /** An append-only text buffer: the `StringBuilder` of the text exporter and the
      `ByteArrayOutputStream` behind the CSV exporter's writer. */
  class TextBuffer {
    var content: string

    constructor ()
      ensures content == ""
    {
      content := "";
    }

    method Append(s: string)
      modifies this
      ensures content == old(content) + s
    {
      content := content + s;
    }
  }
}
