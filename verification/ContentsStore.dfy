/** The checkpoint store as an object over a server that others write to as well. */
module ContentsStore {
  import opened Common
  import opened Contents

  class Server {
    var history: seq<Doc>
    ghost const shared: bool      // other clients write as well

    constructor (ghost shared: bool)
      ensures history == [] && this.shared == shared
    {
      history := [];
      this.shared := shared;
    }

    /** A PUT bound to a blob SHA: committed only if that is still the canonical one. */
    method Put(doc: Doc, expected: Option<Doc>) returns (committed: bool)
      modifies this
      ensures committed <==> Current(old(history)) == expected
      ensures history == if committed then old(history) + [doc] else old(history)
    {
      committed := Current(history) == expected;
      if committed {
        history := history + [doc];
      }
    }

    /** Whatever other clients write meanwhile. */
    method Others()
      modifies this
      ensures old(history) <= history
      ensures !shared ==> history == old(history)
    {
    }
  }

  datatype Answer = Saved(doc: Doc) | CasConflict | Error

  class GitHubContentsCheckpointStore {
    const server: Server
    var casBlobSha: Option<Doc>
    var casLoaded: bool

    constructor (server: Server)
      ensures this.server == server && !casLoaded && casBlobSha.None?
    {
      this.server, casBlobSha, casLoaded := server, None, false;
    }

    method LoadPacket(answered: bool) returns (packet: Option<Doc>)
      modifies this
      ensures answered ==> casLoaded && casBlobSha == packet == Current(server.history)
      ensures !answered ==> packet.None? && casLoaded == old(casLoaded) && casBlobSha == old(casBlobSha)
    {
      if !answered {
        return None;
      }
      packet := Current(server.history);
      casBlobSha, casLoaded := packet, true;
    }

    method Send(intended: Doc, arrives: bool) returns (stored: bool, ghost place: int)
      modifies server
      ensures old(server.history) <= server.history
      ensures stored ==>
              0 <= place == |server.history| - 1 && server.history[place] == intended
                  && Current(server.history[..place]) == casBlobSha
      ensures !server.shared ==> stored == (arrives && Current(old(server.history)) == casBlobSha)
      ensures !server.shared ==> server.history == old(server.history) + if stored then [intended] else []
    {
      stored, place := false, 0;
      server.Others();
      if arrives {
        place := |server.history|;
        ghost var before := server.history;
        stored := server.Put(intended, casBlobSha);
        assert stored ==> server.history[..place] == before;
      }
    }

    /** The bytes of a save: the first revision where nothing was, otherwise the next one. */
    function Next(token: Option<Doc>, packet: Doc): Doc {
      Doc(if token.None? then 1 else packet.revision + 1, packet.body)
    }

    /** What a save answers: a confirmed commit is believed; after anything but a timeout the canonical bytes
        are looked at, and adopted if they are the intended ones; otherwise a refusal, or a failure over
        other bytes, is a conflict, and anything else an error. */
    ghost predicate Resolves(token: Option<Doc>, packet: Doc, committed: bool, reply: Reply, answered: bool,
        answer: Answer)
      reads server
    {
      var now := Current(server.history);
      if token.None? && packet.revision != 0 then answer == CasConflict && !committed
      else if reply.Confirmed? && committed then answer == Saved(Next(token, packet))
      else if reply.TimedOut? then answer == Error
      else if answered && now == Some(Next(token, packet)) then answer == Saved(Next(token, packet))
      else if reply.Refused? || (reply.Failed? && answered && now.Some?) then answer == CasConflict
      else answer == Error
    }

    /** Saves over the token. A success means that the intended bytes, one revision on, were
        canonical, and moves the token to them; otherwise the token stays. When this very call
        committed, its bytes directly follow the token's. */
    method SavePacket(packet: Doc, arrives: bool, reply: Reply, answered: bool)
        returns (answer: Answer, ghost committed: bool, ghost place: int)
      modifies this, server
      ensures old(server.history) <= server.history && casLoaded == old(casLoaded)
      ensures answer.Saved? ==> answer.doc in server.history && casBlobSha == Some(answer.doc)
                                && answer.doc
                                    == Doc(if old(casBlobSha).None? then 1 else packet.revision + 1, packet.body)
      ensures !answer.Saved? ==> casBlobSha == old(casBlobSha)
      ensures committed ==> 0 <= place < |server.history| && Current(server.history[..place]) == old(casBlobSha)
                            && server.history[place]
                                == Doc(if old(casBlobSha).None? then 1 else packet.revision + 1, packet.body)
      ensures !old(casLoaded) ==> answer == Error && !committed
      ensures old(casLoaded) ==> Resolves(old(casBlobSha), packet, committed, reply, answered, answer)
      ensures old(casLoaded) && !server.shared && (old(casBlobSha).Some? || packet.revision == 0) ==>
                && committed == (arrives && Current(old(server.history)) == old(casBlobSha))
                && server.history == old(server.history) + if committed then [Next(old(casBlobSha), packet)] else []
    {
      committed, place := false, 0;
      if !casLoaded {
        return Error, false, 0;
      }
      if casBlobSha.None? && packet.revision != 0 {
        return CasConflict, false, 0;
      }
      var intended := Doc(if casBlobSha.None? then 1 else packet.revision + 1, packet.body);
      var stored;
      stored, place := Send(intended, arrives);
      committed := stored;
      if reply.Confirmed? && stored {
        casBlobSha := Some(intended);
        return Saved(intended), committed, place;
      }
      if reply.TimedOut? {
        return Error, committed, place;
      }
      ghost var before := server.history;
      server.Others();
      assert committed ==> server.history[..place] == before[..place];
      var now := Current(server.history);
      if answered && now == Some(intended) {
        casBlobSha := Some(intended);
        return Saved(intended), committed, place;
      }
      answer := if reply.Refused? || (reply.Failed? && answered && now.Some?) then CasConflict else Error;
    }
  }
}
