/** What a transcript or a message list says, item by item, whatever messages the items stand in. */
module MessageItems {
  import opened Wrappers
  import opened Text
  import opened Messages

  datatype Role = FromUser | FromAssistant

  /** A text, thoughts with the signature they are replayed under, an image, redacted thoughts, a call, or
      a result with its flag and content. */
  datatype Item =
    | Says(role: Role, text: string)
    | Thinks(text: string, signature: string)
    | Shows(data: string, mimeType: string)
    | Redacts(data: string)
    | Calls(id: string, name: string, input: string)
    | Answers(id: string, isError: bool, content: seq<Item>)

  function PartItem(part: Part): Item {
    match part
    case TextPart(text) => Says(FromUser, text)
    case ImagePart(data, mimeType) => Shows(data, mimeType)
  }

  function PartItems(parts: seq<Part>): (items: seq<Item>)
    ensures |items| == |parts|
  {
    seq(|parts|, i requires 0 <= i < |parts| => PartItem(parts[i]))
  }

  /** The parts without the blank texts. */
  function SpokenItems(parts: seq<Part>): seq<Item> {
    if parts == [] then []
    else (if parts[0].TextPart? && IsBlank(parts[0].text) then [] else [PartItem(parts[0])]) + SpokenItems(parts[1..])
  }

  /** A signature that counts: one that is not blank. */
  function SignatureOf(signature: Option<string>): string {
    if signature.Some? && !IsBlank(signature.value) then signature.value else ""
  }

  function TextsOf(parts: seq<Part>): seq<string> {
    if parts == [] then []
    else (if parts[0].TextPart? then [parts[0].text] else []) + TextsOf(parts[1..])
  }

  function JoinLines(lines: seq<string>): string {
    if lines == [] then "" else if |lines| == 1 then lines[0] else lines[0] + "\n" + JoinLines(lines[1..])
  }

  /** No image among the items, nor in the content of a result. */
  predicate NoImages(items: seq<Item>) {
    forall i :: 0 <= i < |items| ==> !items[i].Shows? && (items[i].Answers? ==> NoneShown(items[i].content))
  }

  predicate NoneShown(items: seq<Item>) {
    forall i :: 0 <= i < |items| ==> !items[i].Shows?
  }

  lemma {:induction false} SpokenShowsNoImage(parts: seq<Part>)
    requires forall i :: 0 <= i < |parts| ==> parts[i].TextPart?
    ensures NoImages(SpokenItems(parts)) && NoneShown(SpokenItems(parts))
  {
    if parts != [] {
      SpokenShowsNoImage(parts[1..]);
    }
  }

  lemma ItemsAssociate(a: seq<Item>, b: seq<Item>, c: seq<Item>)
    ensures (a + b) + c == a + (b + c)
    ensures a + [] == a && [] + a == a
  {
  }
}
