/** The pure helpers of the recent-calls list: the type filter, the glyphs
    and colours chosen by a call's type, the name shown for a call and the
    state of the clear-all button. The helpers that take a type take it as
    the string the server sends, and are total on every string. */
module RecentsTab {
  import opened Wrappers
  import opened Schema
  import Collections

  // ---------------------------------------------------------------------
  // The type filter
  // ---------------------------------------------------------------------

  /** "all", or one of the three call types. */
  datatype CallFilter = AllCalls | OnlyType(callType: CallType)

  predicate Passes(l: CallLog, f: CallFilter) {
    f.AllCalls? || l.callType == f.callType
  }

  /** `filteredCallLogs`: "all" keeps everything; a type keeps exactly the
      logs of that type, in their original order. */
  function FilterLogs(ls: seq<CallLog>, f: CallFilter): (r: seq<CallLog>)
    ensures Collections.SubsequenceOf(r, ls)
    ensures f.AllCalls? ==> r == ls
    ensures f.OnlyType? ==> forall l :: l in r <==> l in ls && l.callType == f.callType
    ensures forall l :: multiset(r)[l] == if Passes(l, f) then multiset(ls)[l] else 0
  {
    var keep := (l: CallLog) => Passes(l, f);
    Collections.FilterPreservesOrder(ls, keep);
    if f.AllCalls? then
      Collections.FilterAll(ls, keep);
      Collections.Filter(ls, keep)
    else
      Collections.Filter(ls, keep)
  }

  /** The three type filters split the list: every log passes exactly one. */
  lemma TypeFiltersPartition(ls: seq<CallLog>)
    ensures |FilterLogs(ls, OnlyType(Incoming))| + |FilterLogs(ls, OnlyType(Outgoing))|
            + |FilterLogs(ls, OnlyType(Missed))| == |ls|
  {
    var i, o, m := FilterLogs(ls, OnlyType(Incoming)), FilterLogs(ls, OnlyType(Outgoing)),
                   FilterLogs(ls, OnlyType(Missed));
    assert multiset(i) + multiset(o) + multiset(m) == multiset(ls) by {
      forall l ensures (multiset(i) + multiset(o) + multiset(m))[l] == multiset(ls)[l] {
        assert Passes(l, OnlyType(l.callType));
      }
    }
    assert |multiset(i) + multiset(o) + multiset(m)| == |multiset(ls)|;
  }

  // ---------------------------------------------------------------------
  // Glyphs and colours
  // ---------------------------------------------------------------------

  /** `getCallDirection(type)`: an arrow into the phone for incoming and
      missed calls, out of it for outgoing ones, nothing for anything else. */
  function Direction(t: string): (r: string)
    ensures r == "↓" <==> t == "incoming" || t == "missed"
    ensures r == "↑" <==> t == "outgoing"
    ensures r == "" <==> t !in {"incoming", "outgoing", "missed"}
  {
    match t
    case "incoming" => "↓"
    case "outgoing" => "↑"
    case "missed" => "↓"
    case _ => ""
  }

  /** `getStatusDot(type)`: the destructive colour marks a missed call and
      nothing else. */
  function StatusDot(t: string): (r: string)
    ensures r == "bg-destructive" <==> t == "missed"
    ensures r == "bg-accent" <==> t != "missed"
  {
    if t == "missed" then "bg-destructive" else "bg-accent"
  }

  datatype Glyph = PhoneIncoming | PhoneOutgoing | PhoneMissed | PhoneCall
  datatype Icon = Icon(glyph: Glyph, color: string)

  /** `getCallIcon(type)`: one glyph per known type and a generic one for
      anything else; only the missed-call glyph is drawn in the destructive
      colour. */
  function CallIcon(t: string): (r: Icon)
    ensures r.color == "text-destructive" <==> t == "missed"
    ensures r.color == "text-accent" <==> t != "missed"
    ensures r.glyph == PhoneCall <==> t !in {"incoming", "outgoing", "missed"}
    ensures t == "incoming" ==> r.glyph == PhoneIncoming
    ensures t == "outgoing" ==> r.glyph == PhoneOutgoing
    ensures t == "missed" ==> r.glyph == PhoneMissed
  {
    match t
    case "incoming" => Icon(PhoneIncoming, "text-accent")
    case "outgoing" => Icon(PhoneOutgoing, "text-accent")
    case "missed" => Icon(PhoneMissed, "text-destructive")
    case _ => Icon(PhoneCall, "text-accent")
  }

  /** For every call the server can store, the dot, the icon and the arrow
      are all defined, each type has a glyph no other type shares, and dot
      and icon agree on whether it was missed. */
  lemma StoredTypesAreDrawn(t: CallType)
    ensures Direction(CallTypeName(t)) != ""
    ensures CallIcon(CallTypeName(t)).glyph != PhoneCall
    ensures forall u: CallType :: CallIcon(CallTypeName(u)).glyph == CallIcon(CallTypeName(t)).glyph ==> u == t
    ensures (StatusDot(CallTypeName(t)) == "bg-destructive") == (CallIcon(CallTypeName(t)).color == "text-destructive")
    ensures StatusDot(CallTypeName(t)) == "bg-destructive" <==> t == Missed
  {
  }

  // ---------------------------------------------------------------------
  // Row title and the clear-all button
  // ---------------------------------------------------------------------

  /** `log.contactName || log.phoneNumber`: the stored name when there is a
      non-empty one, the number otherwise. */
  function DisplayName(l: CallLog): (r: string)
    ensures l.contactName.Some? && l.contactName.value != "" ==> r == l.contactName.value
    ensures l.contactName.None? || l.contactName.value == "" ==> r == l.phoneNumber
    ensures r == "" ==> l.phoneNumber == ""
  {
    if l.contactName.Some? && l.contactName.value != "" then l.contactName.value else l.phoneNumber
  }

  /** The clear-all button is disabled while a clear is in flight or when
      there is nothing to clear. */
  function ClearDisabled(pending: bool, ls: seq<CallLog>): (r: bool)
    ensures !pending ==> (r <==> ls == [])
    ensures pending ==> r
  {
    pending || |ls| == 0
  }
}
