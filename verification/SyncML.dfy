/** The message and command datatypes of mdmprotocol/syncml/message.go. */
module SyncML {
  import opened Options

  datatype Meta = Meta(
    format: string, typ: string, mark: string, size: int,
    nextNonce: string, maxMsgSize: int, maxObjSize: int)

  const EMPTY_META := Meta("", "", "", 0, "", 0, 0)

  /** Character data, or markup carried verbatim. */
  datatype Data = Data(value: string, xml: string, originalError: string) {
    function Text(): string {
      if xml != "" then xml else value
    }
  }

  const EMPTY_DATA := Data("", "", "")

  datatype Item = Item(target: string, source: string, meta: Option<Meta>, data: Option<Data>, moreData: bool) {
    function LocURI(): string {
      if target != "" then target else source
    }
  }

  datatype Cred = Cred(meta: Meta, data: string)

  datatype Chal = Chal(meta: Meta)

  datatype Command =
    | Add(cmdID: string, noResp: bool, cred: Option<Cred>, meta: Option<Meta>, items: seq<Item>)
    | Replace(cmdID: string, noResp: bool, cred: Option<Cred>, meta: Option<Meta>, items: seq<Item>)
    | Delete(cmdID: string, noResp: bool, cred: Option<Cred>, meta: Option<Meta>, items: seq<Item>)
    | Get(cmdID: string, noResp: bool, lang: string, cred: Option<Cred>, meta: Option<Meta>, items: seq<Item>)
    | Exec(cmdID: string, noResp: bool, cred: Option<Cred>, meta: Option<Meta>, correlator: string, items: seq<Item>)
    | Alert(cmdID: string, noResp: bool, cred: Option<Cred>, code: string, correlator: string, items: seq<Item>)
    | Atomic(cmdID: string, noResp: bool, meta: Option<Meta>, commands: seq<Command>)
    | Sequence(cmdID: string, noResp: bool, meta: Option<Meta>, commands: seq<Command>)
    | Status(status: StatusCommand)
    | Results(results: ResultsCommand)

  function CmdIDOf(c: Command): string {
    match c
    case Status(s) => s.cmdID
    case Results(r) => r.cmdID
    case _ => c.cmdID
  }

  datatype StatusCommand = StatusCommand(
    cmdID: string, msgRef: string, cmdRef: string, cmd: string, targetRefs: seq<string>,
    sourceRefs: seq<string>, cred: Option<Cred>, chal: Option<Chal>, data: Data, items: seq<Item>)

  datatype ResultsCommand = ResultsCommand(
    cmdID: string, msgRef: string, cmdRef: string, cmd: string, meta: Option<Meta>,
    targetRef: string, sourceRef: string, items: seq<Item>)

  datatype Location = Location(locURI: string, locName: string)

  datatype Header = Header(
    verDTD: string, verProto: string, sessionID: string, msgID: string,
    target: Location, source: Location, respURI: string, noResp: bool,
    cred: Option<Cred>, meta: Option<Meta>)

  datatype Body = Body(commands: seq<Command>, final: bool, msftNamespace: bool)

  datatype Message = Message(namespace: string, header: Header, body: Body)
}
