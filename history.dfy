/**
 * The transfer-history screen (`historial/transferencias/page.tsx`): the sent and
 * received lists are tagged by direction, sent amounts are negated, the two lists
 * are concatenated (sent first) and the result is sorted in place by date, newest
 * first, with a stable sort.
 */
module History {
  import opened Common
  import Api
  import Session

  /** The `tipo` tag of a merged entry. */
  datatype Kind = Destinatario | Remitente

  /** A merged history entry; `fecha` is the date as an integer key. */
  datatype Transferencia = Transferencia(nombre: string, monto: int, fecha: int, descripcion: string, tipo: Kind)

  /** The tag applied to a sent transfer: recipient's name, negated amount. */
  function FromSent(d: Api.SentTransfer): Transferencia
  {
    Transferencia(d.nombreDestinatario, -d.monto, d.fecha, d.descripcion, Destinatario)
  }

  /** The tag applied to a received transfer: sender's name, amount as it came. */
  function FromReceived(r: Api.ReceivedTransfer): Transferencia
  {
    Transferencia(r.nombreRemitente, r.monto, r.fecha, r.descripcion, Remitente)
  }

  function TagSent(ds: seq<Api.SentTransfer>): (ts: seq<Transferencia>)
    ensures |ts| == |ds| && forall i :: 0 <= i < |ds| ==> ts[i] == FromSent(ds[i])
  {
    seq(|ds|, i requires 0 <= i < |ds| => FromSent(ds[i]))
  }

  function TagReceived(rs: seq<Api.ReceivedTransfer>): (ts: seq<Transferencia>)
    ensures |ts| == |rs| && forall i :: 0 <= i < |rs| ==> ts[i] == FromReceived(rs[i])
  {
    seq(|rs|, i requires 0 <= i < |rs| => FromReceived(rs[i]))
  }

  /** The spread concatenation: every sent entry, tagged, then every received entry, tagged. */
  function Merge(ds: seq<Api.SentTransfer>, rs: seq<Api.ReceivedTransfer>): (all: seq<Transferencia>)
    ensures |all| == |ds| + |rs|
    ensures forall i :: 0 <= i < |ds| ==>
              && all[i].nombre == ds[i].nombreDestinatario && all[i].monto == -ds[i].monto
              && all[i].fecha == ds[i].fecha && all[i].descripcion == ds[i].descripcion
              && all[i].tipo == Destinatario
    ensures forall j :: 0 <= j < |rs| ==>
              && all[|ds| + j].nombre == rs[j].nombreRemitente && all[|ds| + j].monto == rs[j].monto
              && all[|ds| + j].fecha == rs[j].fecha && all[|ds| + j].descripcion == rs[j].descripcion
              && all[|ds| + j].tipo == Remitente
  {
    TagSent(ds) + TagReceived(rs)
  }

  // ---- Ordering ----

  /** Newest first: dates never increase along the sequence. */
  ghost predicate SortedByFechaDesc(s: seq<Transferencia>)
  {
    forall i, j :: 0 <= i < j < |s| ==> s[i].fecha >= s[j].fecha
  }

  /** The entries of `s` dated `k`, in their order in `s`. */
  function WithFecha(s: seq<Transferencia>, k: int): seq<Transferencia>
  {
    if s == [] then []
    else WithFecha(s[..|s| - 1], k) + (if s[|s| - 1].fecha == k then [s[|s| - 1]] else [])
  }

  /**
   * A sort is stable for this comparator when, for every date, the entries with that
   * date keep their relative order; together with the date order this is what
   * section 22.1.3.27 of ECMA-262 (10th edition) asks of `Array.prototype.sort`.
   */
  ghost predicate SameWithinEachFecha(s: seq<Transferencia>, t: seq<Transferencia>)
  {
    forall k :: WithFecha(s, k) == WithFecha(t, k)
  }

  /** Insert `x` after every entry of `t` that is not older than `x` (scanning from the end). */
  function Insert(t: seq<Transferencia>, x: Transferencia): (r: seq<Transferencia>)
    ensures |r| == |t| + 1
  {
    if t == [] then [x]
    else if t[|t| - 1].fecha < x.fecha then Insert(t[..|t| - 1], x) + [t[|t| - 1]]
    else t + [x]
  }

  /** Stable insertion sort by date, newest first: the reference the in-place sort is proved against. */
  function SortDesc(s: seq<Transferencia>): (r: seq<Transferencia>)
    ensures |r| == |s|
  {
    if s == [] then [] else Insert(SortDesc(s[..|s| - 1]), s[|s| - 1])
  }

  lemma {:induction false} WithFechaAppend(s: seq<Transferencia>, t: seq<Transferencia>, k: int)
    ensures WithFecha(s + t, k) == WithFecha(s, k) + WithFecha(t, k)
    decreases |t|
  {
    if t == [] {
      assert s + t == s;
    } else {
      var t' := t[..|t| - 1];
      assert (s + t)[..|s + t| - 1] == s + t';
      WithFechaAppend(s, t', k);
    }
  }

  lemma {:induction false} WithFechaMembers(s: seq<Transferencia>, k: int, e: Transferencia)
    ensures e in WithFecha(s, k) <==> e in s && e.fecha == k
  {
    if s != [] {
      var s' := s[..|s| - 1];
      WithFechaMembers(s', k, e);
      assert s == s' + [s[|s| - 1]];
    }
  }

  lemma {:induction false} InsertPermutes(t: seq<Transferencia>, x: Transferencia)
    ensures multiset(Insert(t, x)) == multiset(t) + multiset{x}
  {
    if t != [] {
      var t', l := t[..|t| - 1], t[|t| - 1];
      assert t == t' + [l];
      if l.fecha < x.fecha {
        InsertPermutes(t', x);
      }
    }
  }

  /** Appending an entry no newer than any entry of a newest-first sequence keeps it newest first. */
  lemma AppendOldest(r: seq<Transferencia>, l: Transferencia)
    requires SortedByFechaDesc(r)
    requires forall i :: 0 <= i < |r| ==> r[i].fecha >= l.fecha
    ensures SortedByFechaDesc(r + [l])
  {
    forall i, j | 0 <= i < j < |r + [l]| ensures (r + [l])[i].fecha >= (r + [l])[j].fecha {
      if j < |r| {
        assert (r + [l])[i] == r[i] && (r + [l])[j] == r[j];
      } else {
        assert (r + [l])[i] == r[i];
      }
    }
  }

  /** Every entry of `Insert(t, x)` is at least as new as `l` when `x` and all of `t` are. */
  lemma InsertNotOlder(t: seq<Transferencia>, x: Transferencia, l: Transferencia)
    requires x.fecha >= l.fecha
    requires forall i :: 0 <= i < |t| ==> t[i].fecha >= l.fecha
    ensures forall i :: 0 <= i < |Insert(t, x)| ==> Insert(t, x)[i].fecha >= l.fecha
  {
    var r := Insert(t, x);
    InsertPermutes(t, x);
    forall i | 0 <= i < |r| ensures r[i].fecha >= l.fecha {
      var e := r[i];
      assert e in multiset(r);
      if e != x {
        assert e in multiset(t);
        var m :| 0 <= m < |t| && t[m] == e;
      }
    }
  }

  /** Inserting into a newest-first sequence keeps it newest first. */
  lemma {:induction false} InsertSorted(t: seq<Transferencia>, x: Transferencia)
    requires SortedByFechaDesc(t)
    ensures SortedByFechaDesc(Insert(t, x))
  {
    if t != [] {
      var t', l := t[..|t| - 1], t[|t| - 1];
      if l.fecha < x.fecha {
        assert SortedByFechaDesc(t');
        InsertSorted(t', x);
        assert forall i :: 0 <= i < |t'| ==> t'[i] == t[i];
        InsertNotOlder(t', x, l);
        AppendOldest(Insert(t', x), l);
      } else {
        AppendOldest(t, x);
      }
    }
  }

  /** Inserting moves `x` only past entries of other dates, so each date's entries stay in order. */
  lemma {:induction false} InsertStable(t: seq<Transferencia>, x: Transferencia, k: int)
    ensures WithFecha(Insert(t, x), k) == WithFecha(t + [x], k)
  {
    assert (t + [x])[..|t + [x]| - 1] == t;
    if t != [] {
      var t', l := t[..|t| - 1], t[|t| - 1];
      if l.fecha < x.fecha {
        InsertStable(t', x, k);
        var r := Insert(t', x);
        assert (t' + [x])[..|t' + [x]| - 1] == t';
        assert (r + [l])[..|r + [l]| - 1] == r;
        assert WithFecha(t, k) == WithFecha(t', k) + (if l.fecha == k then [l] else []);
      }
    }
  }

  /** The reference sort is a stable, date-descending permutation of its input. */
  lemma {:induction false} SortDescCorrect(s: seq<Transferencia>)
    ensures SortedByFechaDesc(SortDesc(s))
    ensures multiset(SortDesc(s)) == multiset(s)
    ensures SameWithinEachFecha(SortDesc(s), s)
  {
    if s != [] {
      var s', y := s[..|s| - 1], s[|s| - 1];
      assert s == s' + [y];
      SortDescCorrect(s');
      InsertPermutes(SortDesc(s'), y);
      InsertSorted(SortDesc(s'), y);
      forall k ensures WithFecha(SortDesc(s), k) == WithFecha(s, k) {
        InsertStable(SortDesc(s'), y, k);
        WithFechaAppend(SortDesc(s'), [y], k);
        WithFechaAppend(s', [y], k);
      }
    }
  }

  /** Sequences with the same entries for every date are empty together. */
  lemma SameFechasEmptyTogether(t: seq<Transferencia>, u: seq<Transferencia>)
    requires SameWithinEachFecha(t, u)
    requires u != []
    ensures t != []
  {
    var e := u[|u| - 1];
    WithFechaMembers(u, e.fecha, e);
    assert WithFecha(t, e.fecha) == WithFecha(u, e.fecha);
  }

  /** Two newest-first sequences with the same entries for every date end with the same entry. */
  lemma SortedSameFechasSameLast(t: seq<Transferencia>, u: seq<Transferencia>)
    requires SortedByFechaDesc(t) && SortedByFechaDesc(u)
    requires SameWithinEachFecha(t, u)
    requires t != [] && u != []
    ensures t[|t| - 1] == u[|u| - 1]
  {
    var tl, ul := t[|t| - 1], u[|u| - 1];
    assert WithFecha(t, tl.fecha) == WithFecha(u, tl.fecha);
    assert WithFecha(t, ul.fecha) == WithFecha(u, ul.fecha);
    WithFechaMembers(t, tl.fecha, tl);
    WithFechaMembers(u, tl.fecha, tl);
    WithFechaMembers(u, ul.fecha, ul);
    WithFechaMembers(t, ul.fecha, ul);
    var i :| 0 <= i < |u| && u[i] == tl;
    var j :| 0 <= j < |t| && t[j] == ul;
    assert tl.fecha == ul.fecha;
    var m := tl.fecha;
    var wt, wu := WithFecha(t, m), WithFecha(u, m);
    assert wt == WithFecha(t[..|t| - 1], m) + [tl];
    assert wu == WithFecha(u[..|u| - 1], m) + [ul];
    assert wt == wu;
    assert wt[|wt| - 1] == tl && wu[|wu| - 1] == ul;
  }

  /** Removing the same last entry from both keeps the entries of every date equal. */
  lemma DropSameLast(t: seq<Transferencia>, u: seq<Transferencia>)
    requires SameWithinEachFecha(t, u)
    requires t != [] && u != [] && t[|t| - 1] == u[|u| - 1]
    ensures SameWithinEachFecha(t[..|t| - 1], u[..|u| - 1])
  {
    var t', u', l := t[..|t| - 1], u[..|u| - 1], t[|t| - 1];
    forall k ensures WithFecha(t', k) == WithFecha(u', k) {
      var tail := if l.fecha == k then [l] else [];
      assert WithFecha(t, k) == WithFecha(t', k) + tail;
      assert WithFecha(u, k) == WithFecha(u', k) + tail;
      assert WithFecha(t, k) == WithFecha(u, k);
      assert WithFecha(t', k) == WithFecha(t, k)[..|WithFecha(t, k)| - |tail|];
      assert WithFecha(u', k) == WithFecha(u, k)[..|WithFecha(u, k)| - |tail|];
    }
  }

  /**
   * A date-descending order that is stable is unique: two sequences sorted newest
   * first with the same entries, in the same order, for every date are equal. So
   * every stable sort with this comparator, not only the insertion sort here,
   * produces `SortDesc` of its input.
   */
  lemma {:induction false} StableSortUnique(t: seq<Transferencia>, u: seq<Transferencia>)
    requires SortedByFechaDesc(t) && SortedByFechaDesc(u)
    requires SameWithinEachFecha(t, u)
    ensures t == u
    decreases |t|
  {
    if u != [] {
      SameFechasEmptyTogether(t, u);
    }
    if t != [] {
      if u == [] {
        assert SameWithinEachFecha(u, t);
        SameFechasEmptyTogether(u, t);
      }
      SortedSameFechasSameLast(t, u);
      DropSameLast(t, u);
      var t', u' := t[..|t| - 1], u[..|u| - 1];
      assert SortedByFechaDesc(t') && SortedByFechaDesc(u');
      StableSortUnique(t', u');
      assert t == t' + [t[|t| - 1]] && u == u' + [u[|u| - 1]];
    }
  }

  /** Any stable newest-first arrangement of the merged lists is the reference sort's. */
  lemma AnyStableSortIsSortDesc(s: seq<Transferencia>, t: seq<Transferencia>)
    requires SortedByFechaDesc(t) && SameWithinEachFecha(t, s)
    ensures t == SortDesc(s)
  {
    SortDescCorrect(s);
    StableSortUnique(t, SortDesc(s));
  }

  /**
   * What the history shows for one date: the sent entries of that date in their
   * list order, then the received ones in theirs.
   */
  lemma TiesKeepSentFirst(ds: seq<Api.SentTransfer>, rs: seq<Api.ReceivedTransfer>, k: int)
    ensures WithFecha(SortDesc(Merge(ds, rs)), k) == WithFecha(TagSent(ds), k) + WithFecha(TagReceived(rs), k)
  {
    SortDescCorrect(Merge(ds, rs));
    WithFechaAppend(TagSent(ds), TagReceived(rs), k);
  }

  // ---- The in-place sort ----

  /**
   * Where `x` lands: after the prefix that ends in an entry not older than `x`,
   * ahead of a suffix of entries all older than `x`.
   */
  lemma {:induction false} InsertAtGap(t: seq<Transferencia>, j: nat, x: Transferencia)
    requires j <= |t|
    requires forall m :: j <= m < |t| ==> t[m].fecha < x.fecha
    requires j == 0 || t[j - 1].fecha >= x.fecha
    ensures Insert(t, x) == t[..j] + [x] + t[j..]
    decreases |t|
  {
    if j < |t| {
      var t', l := t[..|t| - 1], t[|t| - 1];
      assert l.fecha < x.fecha;
      assert Insert(t, x) == Insert(t', x) + [l];
      assert forall m :: j <= m < |t'| ==> t'[m] == t[m];
      assert j == 0 || t'[j - 1] == t[j - 1];
      InsertAtGap(t', j, x);
      assert t'[..j] == t[..j];
      assert t[j..] == t'[j..] + [l];
      calc {
        Insert(t, x);
        t'[..j] + [x] + t'[j..] + [l];
        t[..j] + [x] + (t'[j..] + [l]);
      }
    } else {
      assert t[..j] == t;
      assert t[j..] == [];
    }
  }

  /**
   * The shift loop of one insertion pass: moves every entry of `a[..i]` that is
   * older than `x`, from the end, one place right, and returns the gap it leaves.
   */
  method ShiftOlder(a: array<Transferencia>, i: nat, x: Transferencia) returns (j: nat)
    requires i < a.Length
    modifies a
    ensures j <= i
    ensures forall m :: 0 <= m < j ==> a[m] == old(a[m])
    ensures forall m :: j < m <= i ==> a[m] == old(a[m - 1])
    ensures forall m :: i < m < a.Length ==> a[m] == old(a[m])
    ensures forall m :: j <= m < i ==> old(a[m]).fecha < x.fecha
    ensures j == 0 || old(a[j - 1]).fecha >= x.fecha
  {
    j := i;
    while j > 0 && a[j - 1].fecha < x.fecha
      invariant 0 <= j <= i
      invariant forall m :: 0 <= m < j ==> a[m] == old(a[m])
      invariant forall m :: j < m <= i ==> a[m] == old(a[m - 1])
      invariant forall m :: i < m < a.Length ==> a[m] == old(a[m])
      invariant forall m :: j <= m < i ==> old(a[m]).fecha < x.fecha
    {
      a[j] := a[j - 1];
      j := j - 1;
    }
  }

  /**
   * Inserts `a[i]` into the newest-first prefix `a[..i]` by shifting the older
   * entries one place right, as one pass of an insertion sort.
   */
  method InsertLast(a: array<Transferencia>, i: nat)
    requires i < a.Length
    modifies a
    ensures a[..i + 1] == Insert(old(a[..i]), old(a[i]))
    ensures forall m :: i < m < a.Length ==> a[m] == old(a[m])
  {
    var x := a[i];
    var j := ShiftOlder(a, i, x);
    InsertAtGap(old(a[..i]), j, x);
    a[j] := x;
    ghost var expected := old(a[..j]) + [x] + old(a[j..i]);
    forall m | 0 <= m <= i ensures a[m] == expected[m] {
      if m < j {
        assert expected[m] == old(a[m]);
      } else if m > j {
        assert expected[m] == old(a[m - 1]);
      }
    }
    assert a[..i + 1] == expected;
  }

  /**
   * `allTransferencias.sort((a, b) => date(b) - date(a))` as an in-place stable
   * insertion sort; by `StableSortUnique` any stable sort gives the same array.
   */
  method SortByFechaDesc(a: array<Transferencia>)
    modifies a
    ensures a[..] == SortDesc(old(a[..]))
  {
    ghost var input := a[..];
    var i := 0;
    while i < a.Length
      invariant 0 <= i <= a.Length
      invariant a[..i] == SortDesc(input[..i])
      invariant forall m :: i <= m < a.Length ==> a[m] == input[m]
    {
      ghost var sorted := a[..i];
      assert a[i] == input[i];
      assert input[..i + 1][..i] == input[..i];
      assert SortDesc(input[..i + 1]) == Insert(sorted, input[i]);
      InsertLast(a, i);
      assert a[..i + 1] == SortDesc(input[..i + 1]);
      i := i + 1;
    }
    assert a[..] == a[..a.Length];
    assert input[..a.Length] == input;
  }

  /** Copies the merged list into an array and sorts it there. */
  method SortedCopy(all: seq<Transferencia>) returns (r: seq<Transferencia>)
    ensures r == SortDesc(all)
  {
    var a := new Transferencia[|all|](i requires 0 <= i < |all| => all[i]);
    assert a[..] == all;
    SortByFechaDesc(a);
    r := a[..];
  }

  // ---- Display ----

  /** The amount line of a card: an optional leading minus and the absolute value. */
  datatype ShownAmount = ShownAmount(minus: bool, magnitude: nat)

  /** `{tipo === 'destinatario' ? '-' : ''}S/. {Math.abs(monto)}`. */
  function DisplayedAmount(t: Transferencia): (r: ShownAmount)
    ensures r.minus <==> t.tipo == Destinatario
    ensures r.magnitude == t.monto || r.magnitude == -t.monto
  {
    ShownAmount(t.tipo == Destinatario, if t.monto < 0 then -t.monto else t.monto)
  }

  /** A card shows the amount of the original record with the sign fixed by its direction alone. */
  lemma DisplayedAmountOfRecords(d: Api.SentTransfer, r: Api.ReceivedTransfer)
    requires d.monto >= 0 && r.monto >= 0
    ensures DisplayedAmount(FromSent(d)) == ShownAmount(true, d.monto)
    ensures DisplayedAmount(FromReceived(r)) == ShownAmount(false, r.monto)
  {
  }

  /** On the mock lists the history reads: Maria Lopez, Mikel Bracamonte, Juan Perez, Michael Hinojosa. */
  lemma MockHistoryOrder(id: string)
    ensures SortDesc(Merge(Api.GetDestinatarios(id).value, Api.GetRemitentes(id).value)) ==
      [Transferencia("Maria Lopez", -300, 20240928, "Pago de servicios", Destinatario),
       Transferencia("Mikel Bracamonte", 200, 20240928, "Pagado", Remitente),
       Transferencia("Juan Perez", -500, 20240927, "Transferencia", Destinatario),
       Transferencia("Michael Hinojosa", 400, 20240926, "Te debo", Remitente)]
  {
    var juan := Transferencia("Juan Perez", -500, 20240927, "Transferencia", Destinatario);
    var maria := Transferencia("Maria Lopez", -300, 20240928, "Pago de servicios", Destinatario);
    var michael := Transferencia("Michael Hinojosa", 400, 20240926, "Te debo", Remitente);
    var mikel := Transferencia("Mikel Bracamonte", 200, 20240928, "Pagado", Remitente);
    var merged := Merge(Api.GetDestinatarios(id).value, Api.GetRemitentes(id).value);
    assert merged == [juan, maria, michael, mikel];
    assert merged[..3] == [juan, maria, michael] && merged[3] == mikel;
    assert [juan, maria, michael][..2] == [juan, maria];
    assert [juan, maria][..1] == [juan];
    assert SortDesc([juan]) == [juan];
    assert SortDesc([juan, maria]) == Insert([juan], maria) == [maria, juan];
    assert SortDesc([juan, maria, michael]) == Insert([maria, juan], michael) == [maria, juan, michael];
    assert Insert([maria], mikel) == [maria, mikel];
    assert Insert([maria, juan], mikel) == Insert([maria], mikel) + [juan];
    assert Insert([maria, juan, michael], mikel) == Insert([maria, juan], mikel) + [michael];
  }

  // ---- The screen ----

  const FetchErrorMessage: string := "Error al obtener las transferencias"

  /** The component state of the transfer-history screen. */
  class TransferenciasScreen {
    var transferencias: seq<Transferencia>
    var loading: bool
    var error: Option<string>
    var userId: Option<string>

    /** The state on mount: an empty list, loading, no error, no user. */
    constructor ()
      ensures transferencias == [] && loading && error == None && userId == None
    {
      transferencias, loading, error, userId := [], true, None, None;
    }

    /**
     * `fetchTransferencias`. `sent` and `received` are what `GetDestinatarios` and
     * `GetRemitentes` hand back for the stored id; neither is asked for without a
     * truthy stored id. A thrown error of either (the first is awaited before the
     * second is made) leaves the list as it was and sets the fixed message; in
     * every case `loading` ends false.
     */
    method FetchTransferencias(storage: Session.LocalStorage,
                               sent: Api.Call<seq<Api.SentTransfer>>, received: Api.Call<seq<Api.ReceivedTransfer>>)
      modifies this
      ensures !loading
      ensures var id := storage.GetItem(Session.IdKey);
        if !Truthy(id) then
          transferencias == [] && error == old(error) && userId == old(userId)
        else if sent.Threw? || received.Threw? then
          transferencias == old(transferencias) && error == Some(FetchErrorMessage) && userId == id
        else
          transferencias == SortDesc(Merge(sent.value, received.value)) && error == old(error) && userId == id
    {
      var storedId := storage.GetItem(Session.IdKey);
      var ds: seq<Api.SentTransfer> := [];
      var rs: seq<Api.ReceivedTransfer> := [];
      if Truthy(storedId) {
        userId := storedId;
        if sent.Threw? || received.Threw? {
          error := Some(FetchErrorMessage);
          loading := false;
          return;
        }
        ds, rs := sent.value, received.value;
      }
      var all := Merge(ds, rs);
      transferencias := SortedCopy(all);
      loading := false;
    }

    /** The render precedence of the screen. */
    function View(): (v: ScreenView)
      reads this
      ensures v.Content? <==> !loading && !Truthy(error)
    {
      RenderPrecedence(loading, error)
    }
  }

  /** The stored history is newest first, keeps every record once, and keeps each date's order. */
  lemma FetchedHistoryProperties(ds: seq<Api.SentTransfer>, rs: seq<Api.ReceivedTransfer>)
    ensures var t := SortDesc(Merge(ds, rs));
      && |t| == |ds| + |rs|
      && SortedByFechaDesc(t)
      && multiset(t) == multiset(TagSent(ds)) + multiset(TagReceived(rs))
  {
    SortDescCorrect(Merge(ds, rs));
  }
}
