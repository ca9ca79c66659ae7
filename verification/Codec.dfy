/** The printer and the parser of mdmprotocol/syncml, one after the other. */
module Codec {
  import opened SyncML
  import opened Xml
  import opened Decoder
  import opened Encoder
  import opened CodecRoundTrip
  import opened MessageRoundTrip
  import opened Parser
  import opened Writer

  lemma {:induction false} OkEncodable(st: Style, c: Command)
    requires CommandOk(st, c)
    ensures Encodable(c)
  {
    hide MarkupOk, MetaOk, Trimmed;
    match c
    case Atomic(_, _, _, cs) =>
      forall x | x in cs ensures Encodable(x) { OkEncodable(st, x); }
    case Sequence(_, _, _, cs) =>
      forall x | x in cs ensures Encodable(x) { OkEncodable(st, x); }
    case _ =>
  }

  /** `Decode` after `Encode`: every message the codec can carry comes back as it was. */
  method EncodeThenDecode(m: Message, st: Style, declaration: bool) returns (r: Result<Message>)
    requires Blank(st.indent) && MessageOk(st, m)
    ensures r == Good(m)
  {
    forall c | c in m.body.commands ensures Encodable(c) { OkEncodable(st, c); }
    MessageTrip(m, st, declaration);
    hide Encodable, CommandOk, HeaderOk, EncMessage, ParseMessage, Prepend;
    var ok, doc := Encode(m, st, declaration);
    var p := new TokenParser(AsToks(doc));
    r := p.ReadMessage();
  }

  /** The tokens of a document, as the parser pulls them. */
  function AsToks(doc: seq<Token>): Toks {
    Prepend(doc, Nil)
  }
}
