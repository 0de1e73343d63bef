/** The order pipeline's tables as the server changes them in place, statement by statement; every
    method is proved equal to the table function of the same name in `Ledger`. */
module LedgerStores {
  import opened Common
  import L = Ledger

  type CmdTable = map<CmdId, L.Command>

  class LedgerStore {
    var commands: CmdTable
    var orders: seq<L.Order>
    var quotas: seq<L.Quota>

    function View(): L.Db
      reads this
    {
      L.Db(commands, orders, quotas)
    }

    constructor ()
      ensures View() == L.Db(map[], [], [])
    {
      commands, orders, quotas := map[], [], [];
    }

    // ---- Single statements ----

    method MarkTransportAcked(id: CmdId) returns (won: bool)
      requires id in commands
      modifies this`commands
      ensures won == !old(commands)[id].acked
      ensures commands == old(commands)[id := old(commands)[id].(acked := true)]
    {
      won := !commands[id].acked;
      commands := commands[id := commands[id].(acked := true)];
    }

    method CasResolve(id: CmdId, outcome: L.Outcome, via: L.Via, resultOrdno: Option<Ordno>) returns (won: bool)
      modifies this`commands
      ensures (commands, won) == L.CasResolve(old(commands), id, outcome, via, resultOrdno)
    {
      won := id in commands && !commands[id].resolved;
      if won {
        commands := commands[id := commands[id].(outcome := Some(outcome), via := Some(via), resolved := true,
                                                 resultOrdno := resultOrdno)];
      }
    }

    method ReserveQuota(id: L.ResId, user: UserId, mode: Mode, day: Day, qty: int, limit: int) returns (ok: bool)
      modifies this`quotas
      ensures (quotas, ok) == L.Reserve(old(quotas), id, user, mode, day, qty, limit)
    {
      var i := L.FindQuota(quotas, id);
      if i < |quotas| {
        return L.Active(quotas[i].state);
      }
      ok := L.Used(quotas, user, mode, day) + qty <= limit;
      if ok {
        quotas := quotas + [L.Quota(id, user, mode, day, qty, L.Reserved)];
      }
    }

    method SettleQuota(id: Option<L.ResId>, next: L.QuotaState) returns (ok: bool)
      modifies this`quotas
      ensures quotas == L.SettleOpt(old(quotas), id, next)
      ensures ok == (id.Some? && L.FindQuota(old(quotas), id.value) < |old(quotas)|
                     && old(quotas)[L.FindQuota(old(quotas), id.value)].state == L.Reserved)
    {
      if id.None? {
        return false;
      }
      var i := L.FindQuota(quotas, id.value);
      ok := i < |quotas| && quotas[i].state == L.Reserved;
      if ok {
        quotas := quotas[i := quotas[i].(state := next)];
      }
    }

    method MarkOrderStatus(i: nat, next: L.Status)
      requires i < |orders|
      modifies this`orders
      ensures orders == old(orders)[i := L.MarkStatus(old(orders)[i], next)]
    {
      if L.CanMove(orders[i].status, next) {
        orders := orders[i := orders[i].(status := next)];
      }
    }

    // ---- The effect functions ----

    method ApplyPlaceAck(k: ClientId, ordno: Option<Ordno>, res: Option<L.ResId>)
      modifies this`orders, this`quotas
      ensures View() == L.PlaceAcked(old(View()), k, ordno, res)
    {
      var i := L.FindClient(orders, k);
      if i < |orders| {
        orders := orders[i := orders[i].(ordno := ordno, status := L.Submitted)];
        var _ := SettleQuota(res, L.Confirmed);
      }
    }

    method ApplyPlaceFailure(k: ClientId, res: Option<L.ResId>, status: L.Status)
      modifies this`orders, this`quotas
      ensures View() == L.PlaceFailed(old(View()), k, res, status)
    {
      var i := L.FindClient(orders, k);
      if i < |orders| {
        MarkOrderStatus(i, status);
        if status == L.Failed {
          var _ := SettleQuota(res, L.Released);
        }
      }
    }

    method ApplyUpdateAck(i: nat, c: L.Command)
      requires i < |orders|
      modifies this`orders, this`quotas
      ensures orders == old(orders)[i := L.UpdateAckOrder(old(orders)[i], c.price, c.qty)]
      ensures quotas == L.SettleOpt(old(quotas), c.reservation, L.Confirmed)
    {
      var o := orders[i];
      orders := orders[i := o.(price := if c.price.Some? then c.price.value else o.price, qty := c.qty)];
      MarkOrderStatus(i, L.Submitted);
      var _ := SettleQuota(c.reservation, L.Confirmed);
    }

    // ---- The ack applier ----

    method ApplyEffects(id: CmdId, row: L.Command, ack: L.Ack)
      requires id in commands && commands[id] == row.(acked := true) && !row.resolved
      requires !(ack.ok && row.kind == L.Place && L.OrdnoTaken(orders, row.client, ack.ordno))
      modifies this
      ensures View() ==
                if ack.ok then
                  L.OkEffects(old(View()).(commands := L.CasResolve(old(commands), id, L.OutOk, L.ByAck, ack.ordno).0), row, ack)
                else if L.ExplicitReject(ack) then
                  L.RejectEffects(old(View()).(commands := L.CasResolve(old(commands), id, L.OutError, L.ByAck, None).0), row)
                else
                  L.TimeoutEffects(old(View()).(commands := old(commands)[id := old(commands)[id].(outcome := Some(L.OutUnknown))]), row)
    {
      if ack.ok {
        var _ := CasResolve(id, L.OutOk, L.ByAck, ack.ordno);
        var i := L.FindCommandOrder(View(), row);
        if i < |orders| {
          match row.kind
          case Place => ApplyPlaceAck(row.client, ack.ordno, row.reservation);
          case Cancel => MarkOrderStatus(i, L.Cancelled);
          case Update => ApplyUpdateAck(i, row);
        }
      } else if L.ExplicitReject(ack) {
        var _ := CasResolve(id, L.OutError, L.ByAck, None);
        match row.kind
        case Place => ApplyPlaceFailure(row.client, row.reservation, L.Failed);
        case Cancel =>
        case Update => var _ := SettleQuota(row.reservation, L.Released);
      } else {
        if row.kind == L.Place {
          ApplyPlaceFailure(row.client, None, L.Unknown);
        }
        commands := commands[id := commands[id].(outcome := Some(L.OutUnknown))];
      }
    }

    method ApplyCommandAck(id: CmdId, user: UserId, ack: L.Ack) returns (r: L.Applied)
      modifies this
      ensures (View(), r) == L.ApplyAck(old(View()), id, user, ack)
    {
      if id !in commands {
        return L.Applied(false, false, false, false, false);
      }
      var row := commands[id];
      if row.user != user {
        return L.Applied(true, true, false, false, false);
      }
      var before := commands;
      var won := MarkTransportAcked(id);
      if !won {
        assert commands == before;
        return L.Applied(true, false, false, false, false);
      }
      if row.resolved {
        return L.Applied(true, false, true, true, false);
      }
      if ack.ok && row.kind == L.Place && L.OrdnoTaken(orders, row.client, ack.ordno) {
        commands := before;
        return L.Applied(true, false, false, false, false);
      }
      ApplyEffects(id, row, ack);
      r := L.Applied(true, false, true, false, true);
    }

    // ---- The route ----

    method MarkTimeoutObserved(id: CmdId) returns (won: bool)
      modifies this
      ensures (View(), won) == L.TimeoutObserved(old(View()), id)
    {
      won := id in commands && !commands[id].acked && !commands[id].timedOut;
      if won {
        var row := commands[id];
        commands := commands[id := row.(timedOut := true)];
        if row.kind == L.Place {
          ApplyPlaceFailure(row.client, None, L.Unknown);
        }
      }
    }

    method ResolveNeverDispatched(id: CmdId)
      modifies this
      ensures View() == L.NeverDispatched(old(View()), id)
    {
      if id !in commands || commands[id].kind == L.Cancel {
        return;
      }
      var row := commands[id];
      if row.kind == L.Place {
        ApplyPlaceFailure(row.client, row.reservation, L.Failed);
      } else {
        var _ := SettleQuota(row.reservation, L.Released);
      }
      var _ := CasResolve(id, L.OutError, L.ByLocal, None);
    }

    // ---- The resolvers ----

    method ResolveUpdateViaQueryQty(id: CmdId, realQty: Option<int>) returns (d: L.Resolution)
      modifies this
      ensures (View(), d) == L.ResolveUpdate(old(View()), id, realQty)
    {
      if id !in commands || commands[id].resolved || commands[id].ordno.None? {
        return L.LeftPending;
      }
      var row := commands[id];
      var i := L.FindOrdno(orders, row.account, row.mode, row.ordno.value);
      if i == |orders| {
        return L.LeftPending;
      }
      var determinable := row.qty != orders[i].qty;
      if determinable && realQty == Some(row.qty) {
        var _ := CasResolve(id, L.OutOk, L.ByQuery, None);
        ApplyUpdateAck(i, row);
        return L.ConfirmedByQty;
      }
      if determinable && realQty == Some(orders[i].qty) {
        var _ := CasResolve(id, L.OutError, L.ByQuery, None);
        var _ := SettleQuota(row.reservation, L.Released);
        return L.ReleasedByQty;
      }
      if L.TerminalForResolver(orders[i].status) {
        var _ := CasResolve(id, L.OutUnknown, L.ByReport, None);
        var _ := SettleQuota(row.reservation, L.Confirmed);
        return L.ConservativelyConfirmed;
      }
      return L.LeftPending;
    }

    method ResolveCancelViaReport(id: CmdId) returns (won: bool)
      modifies this
      ensures (View(), won) == L.ResolveCancel(old(View()), id)
    {
      if id !in commands || commands[id].resolved || commands[id].ordno.None? {
        return false;
      }
      var row := commands[id];
      var i := L.FindOrdno(orders, row.account, row.mode, row.ordno.value);
      if i == |orders| || !L.TerminalForResolver(orders[i].status) {
        return false;
      }
      won := CasResolve(id, L.OutUnknown, L.ByReport, None);
    }

    // ---- The decision sections ----

    method CheckPlace(o: L.Order, limit: int)
      modifies this
      ensures View() == L.CheckPlace(old(View()), o, limit)
    {
      if L.FindClient(orders, o.client) < |orders| {
        return;
      }
      var ok := ReserveQuota(L.PlaceRes(o.client), o.user, o.mode, o.day, o.qty, limit);
      if ok {
        orders := orders + [o];
      }
    }

    method CheckUpdate(k: ClientId, qty: int, price: real, limit: int) returns (ok: bool)
      modifies this
      ensures (View(), ok) == L.CheckUpdate(old(View()), k, qty, price, limit)
    {
      var i := L.FindClient(orders, k);
      if i == |orders| || orders[i].ordno.None? || qty <= 0 {
        return false;
      }
      var delta := qty - orders[i].qty;
      ok := true;
      if delta > 0 {
        ok := ReserveQuota(L.UpdateRes(k, qty, price), orders[i].user, orders[i].mode, orders[i].day, delta, limit);
      }
    }

    /** The insert, with the cleanup after a taken single-flight slot. */
    method InsertUpdate(id: CmdId, k: ClientId, qty: int, price: real, expires: int) returns (ok: bool)
      modifies this
      ensures (View(), ok) == L.InsertUpdate(old(View()), id, k, qty, price, expires)
    {
      var i := L.FindClient(orders, k);
      if i == |orders| {
        return false;
      }
      var res := L.UpdateRes(k, qty, price);
      if L.UpdateUnresolved(commands, k) {
        if !L.WinnerReserved(commands, k, res) {
          var _ := SettleQuota(Some(res), L.Released);
        }
        return false;
      }
      commands := commands[id := L.NewCommand(L.Update, orders[i], Some(res), qty, Some(price), expires)];
      return true;
    }
  }
}
