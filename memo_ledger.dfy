/** index.js: the stand-alone server whose tickets are keyed by a uuid. A ticket is created
 *  together with a 1000-sat deposit invoice whose memo names the ticket, and the LNbits
 *  webhook finds the ticket again by reading its id out of the memo. */
module MemoLedger {
  import opened Schema

  /** `statut`: 'réservé', 'validé', or the undefined value the webhook writes (NULL). */
  datatype Statut = Reserve | Valide | Unset

  datatype MemoTicket = MemoTicket(publicKey: string, montantTotal: int, montantAcquitte: int,
                                   dateLimite: string, statut: Statut)

  /** `amount: 1000`, the deposit invoiced when a ticket is created. */
  const DepositSats: int := 1000

  const Marker: string := "Ticket #"

  /** `Acompte Ticket #${id}` */
  function DepositMemo(id: string): string {
    "Acompte Ticket #" + id
  }

  // ---------------------------------------------------------------------------
  // memo.match(/Ticket #(.+)/) and match[1]

  /** The characters `.` does not match. */
  predicate IsLineTerminator(c: char) {
    c == '\n' || c == '\r' || c as int == 0x2028 || c as int == 0x2029
  }

  /** The pattern matches starting at position i: the marker, then at least one character. */
  predicate MatchesAt(s: string, i: nat) {
    i + |Marker| < |s| && s[i..i + |Marker|] == Marker && !IsLineTerminator(s[i + |Marker|])
  }

  /** The leftmost position at or after i where the pattern matches. */
  function FirstMatch(s: string, i: nat): (r: Option<nat>)
    requires i <= |s|
    decreases |s| - i
    ensures r.Some? ==> i <= r.value && MatchesAt(s, r.value)
    ensures r.Some? ==> forall j :: i <= j < r.value ==> !MatchesAt(s, j)
    ensures r.None? ==> forall j :: i <= j <= |s| ==> !MatchesAt(s, j)
  {
    if i == |s| then None
    else if MatchesAt(s, i) then Some(i)
    else FirstMatch(s, i + 1)
  }

  /** Where the greedy `.+` starting at i stops: the next line terminator, or the end. */
  function LineEnd(s: string, i: nat): (e: nat)
    requires i <= |s|
    decreases |s| - i
    ensures i <= e <= |s|
    ensures e < |s| ==> IsLineTerminator(s[e])
    ensures forall j :: i <= j < e ==> !IsLineTerminator(s[j])
  {
    if i == |s| || IsLineTerminator(s[i]) then i else LineEnd(s, i + 1)
  }

  /** The captured ticket id: a non-empty run without line terminators, present exactly
   *  when the pattern matches somewhere in the memo. */
  function ParseTicketId(memo: string): (r: Option<string>)
    ensures r.Some? ==> |r.value| > 0 && forall c :: c in r.value ==> !IsLineTerminator(c)
    ensures r.None? <==> forall j :: 0 <= j <= |memo| ==> !MatchesAt(memo, j)
  {
    match FirstMatch(memo, 0)
    case None => None
    case Some(i) =>
      var e := LineEnd(memo, i + |Marker|);
      var id := memo[i + |Marker|..e];
      assert forall k :: 0 <= k < |id| ==> id[k] == memo[i + |Marker| + k];
      Some(id)
  }

  /** The webhook reads back the id the deposit memo was built from. */
  lemma {:induction false} DepositMemoRoundTrip(id: string)
    requires |id| > 0 && forall c :: c in id ==> !IsLineTerminator(c)
    ensures ParseTicketId(DepositMemo(id)) == Some(id)
  {
    var m := DepositMemo(id);
    forall j | 0 <= j < 8
      ensures !MatchesAt(m, j)
    {
      assert m[j] != 'T';
      assert m[j..j + |Marker|][0] == m[j];
    }
    assert m[8..16] == Marker;
    assert m[16] == id[0];
    assert MatchesAt(m, 8);
    assert FirstMatch(m, 0) == Some(8);
    var e := LineEnd(m, 16);
    assert e == |m|;
    assert m[16..e] == id;
  }

  // ---------------------------------------------------------------------------
  // The webhook's update (lines 76-83)

  /** As written: `statut` is never selected (line 70), so it starts undefined and is
   *  written back as NULL unless the ticket is now covered. */
  function Settled(row: MemoTicket, amount: int): (r: MemoTicket)
    ensures r.montantAcquitte == row.montantAcquitte + amount
    ensures r.statut == Valide <==> r.montantAcquitte >= row.montantTotal
    ensures r.statut != Valide ==> r.statut == Unset
    ensures r.(montantAcquitte := row.montantAcquitte, statut := row.statut) == row
  {
    var paid := row.montantAcquitte + amount;
    row.(montantAcquitte := paid, statut := if paid >= row.montantTotal then Valide else Unset)
  }

  /** As intended: the ticket keeps its status until it is covered. */
  function IntendedSettled(row: MemoTicket, amount: int): (r: MemoTicket)
    ensures r.montantAcquitte == row.montantAcquitte + amount
    ensures r.montantAcquitte >= row.montantTotal ==> r.statut == Valide
    ensures r.montantAcquitte < row.montantTotal ==> r.statut == row.statut
    ensures r.(montantAcquitte := row.montantAcquitte, statut := row.statut) == row
  {
    var paid := row.montantAcquitte + amount;
    row.(montantAcquitte := paid, statut := if paid >= row.montantTotal then Valide else row.statut)
  }

  /** A first deposit that does not cover the ticket erases its 'réservé' status; the
   *  intended update keeps it. */
  lemma DepositErasesStatut()
    ensures var row := MemoTicket("02ab", 3000, 0, "2025-12-31", Reserve);
            && Settled(row, DepositSats).statut == Unset
            && IntendedSettled(row, DepositSats).statut == Reserve
  {
  }

  /** Under the intended update the status only ever moves to 'validé'. */
  lemma IntendedSettledOnlyValidates(row: MemoTicket, amount: int)
    ensures IntendedSettled(row, amount).statut == row.statut || IntendedSettled(row, amount).statut == Valide
    ensures row.statut != Unset ==> IntendedSettled(row, amount).statut != Unset
  {
  }

  datatype CreateReply = Created(ticketId: string, paymentRequest: string) | InvoiceFailed

  datatype WebhookReply = MemoUnreadable | NoTicketId | TicketUnknown
                        | Updated(ticketId: string, montantAcquitte: int, statut: Statut)

  /** Lines 15-51. The INSERT is not awaited, so the row is stored whether or not LNbits
   *  issues the deposit invoice (`minted` is its payment_request, None when the call fails). */
  function CreateStep(rows: map<string, MemoTicket>, id: string, publicKey: string, montantTotal: int,
                      dateLimite: string, minted: Option<string>)
    : (r: (CreateReply, map<string, MemoTicket>))
    ensures id in r.1 && r.1[id].montantAcquitte == 0 && r.1[id].statut == Reserve
    ensures r.1[id].montantTotal == montantTotal && r.1[id].publicKey == publicKey && r.1[id].dateLimite == dateLimite
    ensures r.1.Keys == rows.Keys + {id} && forall k :: k in rows && k != id ==> r.1[k] == rows[k]
    ensures r.0.Created? <==> minted.Some?
    ensures r.0.Created? ==> r.0 == Created(id, minted.value)
  {
    var rows' := rows[id := MemoTicket(publicKey, montantTotal, 0, dateLimite, Reserve)];
    match minted
    case None => (InvoiceFailed, rows')
    case Some(request) => (Created(id, request), rows')
  }

  /** Lines 54-100; `memo` is None when the notification carries none (`memo.match` throws). */
  function WebhookStep(rows: map<string, MemoTicket>, memo: Option<string>, amount: int)
    : (r: (WebhookReply, map<string, MemoTicket>))
    ensures !r.0.Updated? ==> r.1 == rows
    ensures r.0 == MemoUnreadable <==> memo.None?
    ensures r.0 == NoTicketId <==> memo.Some? && ParseTicketId(memo.value).None?
    ensures r.0 == TicketUnknown <==>
      memo.Some? && ParseTicketId(memo.value).Some? && ParseTicketId(memo.value).value !in rows
    ensures r.0.Updated? ==>
      && memo.Some? && ParseTicketId(memo.value) == Some(r.0.ticketId) && r.0.ticketId in rows
      && r.1 == rows[r.0.ticketId := Settled(rows[r.0.ticketId], amount)]
      && r.0.montantAcquitte == rows[r.0.ticketId].montantAcquitte + amount
      && r.0.statut == r.1[r.0.ticketId].statut
  {
    match memo
    case None => (MemoUnreadable, rows)
    case Some(m) =>
      match ParseTicketId(m)
      case None => (NoTicketId, rows)
      case Some(id) =>
        if id !in rows then (TicketUnknown, rows)
        else
          var row := Settled(rows[id], amount);
          (Updated(id, row.montantAcquitte, row.statut), rows[id := row])
  }

  /** The deposit notification of a ticket just created credits that ticket and no other. */
  lemma CreateThenDeposit(rows: map<string, MemoTicket>, id: string, publicKey: string, montantTotal: int,
                          dateLimite: string, minted: Option<string>, amount: int)
    requires |id| > 0 && forall c :: c in id ==> !IsLineTerminator(c)
    ensures var created := CreateStep(rows, id, publicKey, montantTotal, dateLimite, minted).1;
            var paid := WebhookStep(created, Some(DepositMemo(id)), amount);
            && paid.0.Updated? && paid.0.ticketId == id
            && paid.1[id].montantAcquitte == amount
            && (paid.1[id].statut == Valide <==> amount >= montantTotal)
            && forall k :: k in created && k != id ==> paid.1[k] == created[k]
  {
    DepositMemoRoundTrip(id);
  }

  /** The `tickets` table of index.js, keyed by its uuid `id`. */
  class TicketTable {
    var rows: map<string, MemoTicket>

    constructor ()
      ensures rows == map[]
    {
      rows := map[];
    }

    /** `id` is the fresh uuidv4 of the request. */
    method CreateTicket(id: string, publicKey: string, montantTotal: int, dateLimite: string,
                        minted: Option<string>)
      returns (r: CreateReply)
      requires id !in rows
      modifies this
      ensures (r, rows) == CreateStep(old(rows), id, publicKey, montantTotal, dateLimite, minted)
    {
      rows := rows[id := MemoTicket(publicKey, montantTotal, 0, dateLimite, Reserve)];
      if minted.None? {
        return InvoiceFailed;
      }
      r := Created(id, minted.value);
    }

    method OnWebhook(memo: Option<string>, amount: int) returns (r: WebhookReply)
      modifies this
      ensures (r, rows) == WebhookStep(old(rows), memo, amount)
    {
      if memo.None? {
        return MemoUnreadable;
      }
      var found := ParseTicketId(memo.value);
      if found.None? {
        return NoTicketId;
      }
      var id := found.value;
      if id !in rows {
        return TicketUnknown;
      }
      var ticket := rows[id];
      var nouveauMontant := ticket.montantAcquitte + amount;
      var statut := Unset;
      if nouveauMontant >= ticket.montantTotal {
        statut := Valide;
      }
      rows := rows[id := ticket.(montantAcquitte := nouveauMontant, statut := statut)];
      r := Updated(id, nouveauMontant, statut);
    }
  }
}
