/** The pull events of an XML document, in document order: the ones
    `xml.dom.pulldom` hands to the scanner, plus kinds it does not deliver by
    default (an end of document, comments), which every handler ignores.
    Only the event kind and, for elements, the tag name matter to the scanner. */
module Events {

  datatype Event =
    | StartDocument
    | EndDocument
    | StartElement(tag: string)
    | EndElement(tag: string)
    | Characters(data: string)
    | Comment(text: string)
    | ProcessingInstruction(target: string, body: string)

  /** One character-data event per chunk, in order. */
  function Chars(chunks: seq<string>): (evs: seq<Event>)
    ensures |evs| == |chunks|
    ensures forall i :: 0 <= i < |chunks| ==> evs[i] == Characters(chunks[i])
  {
    seq(|chunks|, i requires 0 <= i < |chunks| => Characters(chunks[i]))
  }
}
