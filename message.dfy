/** Paxos message kinds and the message record (paxosAlg/message.py). */
module PaxosMessage {

  datatype Option<+T> = None | Some(value: T)

  /** Node identifiers and proposed values are strings in the simulation. */
  type NodeId = string
  type Value = string

  /** The five message kinds of single-decree Paxos. */
  datatype MsgType = Prepare | Promise | Accept | Accepted | Learn

  /** A message; the optional fields default to None as in the Python constructor. */
  datatype Message = Message(
    sender: NodeId,
    receiver: NodeId,
    msgType: MsgType,
    proposalId: Option<int> := None,
    value: Option<Value> := None,
    acceptedProposalId: Option<int> := None)

  /** The enum member name used when a message is rendered. */
  function TypeName(t: MsgType): string
  {
    match t
    case Prepare => "PREPARE"
    case Promise => "PROMISE"
    case Accept => "ACCEPT"
    case Accepted => "ACCEPTED"
    case Learn => "LEARN"
  }

  /** The message kinds are exactly five, with pairwise distinct names. */
  lemma FiveKinds()
    ensures forall t: MsgType :: TypeName(t) in ["PREPARE", "PROMISE", "ACCEPT", "ACCEPTED", "LEARN"]
    ensures |{Prepare, Promise, Accept, Accepted, Learn}| == 5
    ensures forall t, u: MsgType :: TypeName(t) == TypeName(u) ==> t == u
  {
  }

  lemma DefaultFields(s: NodeId, r: NodeId, t: MsgType)
    ensures Message(s, r, t).proposalId == None
    ensures Message(s, r, t).value == None
    ensures Message(s, r, t).acceptedProposalId == None
    ensures Message(s, r, t).sender == s && Message(s, r, t).receiver == r && Message(s, r, t).msgType == t
  {
  }

  predicate IsDigit(c: char) { '0' <= c <= '9' }

  function DigitChar(d: nat): (c: char)
    requires d < 10
    ensures IsDigit(c) && c as int - '0' as int == d
  {
    "0123456789"[d]
  }

  /** Python's str() of a non-negative integer: decimal digits, no leading zeros. */
  function NatToString(n: nat): (s: string)
    ensures |s| >= 1 && forall i :: 0 <= i < |s| ==> IsDigit(s[i])
    ensures (n == 0) == (s == "0")
    ensures n > 0 ==> s[0] != '0'
    decreases n
  {
    if n < 10 then [DigitChar(n)] else NatToString(n / 10) + [DigitChar(n % 10)]
  }

  /** Python's str() of an integer: an optional minus sign, then the digits. */
  function IntToString(x: int): (s: string)
    ensures |s| >= 1
    ensures s[0] == '-' <==> x < 0
    ensures forall i :: 0 < i < |s| ==> IsDigit(s[i])
    ensures x >= 0 ==> IsDigit(s[0])
  {
    if x < 0 then "-" + NatToString(-x) else NatToString(x)
  }

  /** The "ID Prop." field: the number, or N/A exactly when there is none. */
  function ProposalField(p: Option<int>): (s: string)
    ensures s == "N/A" <==> p.None?
    ensures p.Some? ==> s == IntToString(p.value)
  {
    match p
    case None => "N/A"
    case Some(n) =>
      var r := IntToString(n);
      assert r[0] != 'N';
      r
  }

  /** The "Valor" field: the value itself, or N/A when there is none. */
  function ValueField(v: Option<Value>): (s: string)
    ensures v.None? ==> s == "N/A"
    ensures v.Some? ==> s == v.value
  {
    match v
    case None => "N/A"
    case Some(x) => x
  }

  /** The text of Message.__repr__. */
  function Render(m: Message): (s: string)
    ensures |s| > |TypeName(m.msgType)| + 2
    ensures s[0] == '[' && s[1..|TypeName(m.msgType)| + 1] == TypeName(m.msgType)
  {
    "[" + TypeName(m.msgType) + "] De: " + m.sender + " | Para: " + m.receiver
    + " | ID Prop.: " + ProposalField(m.proposalId)
    + " | Valor: " + ValueField(m.value)
  }

  /** The rendered text ends with the two optional fields; N/A appears as the id exactly when it is missing. */
  lemma RenderTail(m: Message)
    ensures var tail := " | ID Prop.: " + ProposalField(m.proposalId) + " | Valor: " + ValueField(m.value);
      |tail| <= |Render(m)| && Render(m)[|Render(m)| - |tail|..] == tail
    ensures (ProposalField(m.proposalId) == "N/A") == m.proposalId.None?
  {
    var head := "[" + TypeName(m.msgType) + "] De: " + m.sender + " | Para: " + m.receiver;
    var tail := " | ID Prop.: " + ProposalField(m.proposalId) + " | Valor: " + ValueField(m.value);
    assert Render(m) == head + tail;
  }
}
