/** The handles of a channel: each is open, being finalized, or has dropped its reference. */
module Endpoints {
  import opened Threads

  datatype Role = Sender | Receiver

  datatype Handle = Handle(role: Role, pc: HandlePc)

  predicate IsOpenSender(h: Handle) { h.role.Sender? && h.pc.Open? }
  predicate HoldsRef(h: Handle) { !h.pc.Released? }

  lemma HandleMoves(hs: map<nat, Handle>, h: nat, v: Handle)
    ensures Count(hs[h := v], IsOpenSender)
            == Count(hs, IsOpenSender) - Here(hs, h, IsOpenSender) + One(IsOpenSender(v))
    ensures Count(hs[h := v], HoldsRef) == Count(hs, HoldsRef) - Here(hs, h, HoldsRef) + One(HoldsRef(v))
  {
    CountPut(hs, h, v, IsOpenSender);
    CountPut(hs, h, v, HoldsRef);
  }
}
