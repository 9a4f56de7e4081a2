/**
 * The SQLite tables the models read and write, as in-memory sequences of
 * rows. Each row carries the integer primary key SQLite assigns on insert;
 * key 0 never occurs in a table and stands for Python's `None` in an
 * object that was never saved (`if not self.id`).
 *
 * Keys come from a counter that only grows, so rows are kept in ascending
 * key order, which is also insertion order (`ORDER BY id`).
 */
module Tablas {

  import opened Wrappers

  datatype Fila<T> = Fila(id: nat, datos: T)

  /** Keys are positive, strictly ascending and no larger than the last key handed out. */
  predicate ClavesValidas<T>(fs: seq<Fila<T>>, ultimo: nat) {
    && (forall i :: 0 <= i < |fs| ==> 0 < fs[i].id <= ultimo)
    && (forall i, j :: 0 <= i < j < |fs| ==> fs[i].id < fs[j].id)
  }

  /** `SELECT * ... WHERE id = ?` with `fetch_one`: the first row with that key. */
  function Buscar<T>(fs: seq<Fila<T>>, id: nat): (r: Option<T>)
    ensures r.Some? <==> exists i :: 0 <= i < |fs| && fs[i].id == id
    ensures r.Some? ==> exists i :: 0 <= i < |fs| && fs[i] == Fila(id, r.value)
  {
    if fs == [] then None
    else if fs[0].id == id then Some(fs[0].datos)
    else Buscar(fs[1..], id)
  }

  /** `UPDATE ... WHERE id = ?`: every row with that key is rewritten by `f`; the others are left alone. */
  function Modificadas<T>(fs: seq<Fila<T>>, id: nat, f: T -> T): (r: seq<Fila<T>>)
    ensures |r| == |fs|
    ensures forall i :: 0 <= i < |fs| ==> r[i].id == fs[i].id
    ensures forall i :: 0 <= i < |fs| && fs[i].id != id ==> r[i] == fs[i]
    ensures forall i :: 0 <= i < |fs| && fs[i].id == id ==> r[i].datos == f(fs[i].datos)
  {
    seq(|fs|, i requires 0 <= i < |fs| => if fs[i].id == id then Fila(id, f(fs[i].datos)) else fs[i])
  }

  /** `DELETE ... WHERE <p>`: the rows that do not satisfy `p`, in their order. */
  function Sin<T(!new)>(fs: seq<Fila<T>>, p: Fila<T> -> bool): (r: seq<Fila<T>>)
    ensures |r| <= |fs|
    ensures forall x :: x in r ==> x in fs && !p(x)
  {
    Donde(fs, x => !p(x))
  }

  /** `DELETE` keeps every row that does not satisfy `p`. */
  lemma {:induction false} SinCompleto<T(!new)>(fs: seq<Fila<T>>, p: Fila<T> -> bool)
    ensures forall x :: x in fs && !p(x) ==> x in Sin(fs, p)
  {
    DondeCompleto(fs, x => !p(x));
  }

  /** `SELECT * ... WHERE <p>`: the rows that satisfy `p`, in their order. */
  function Donde<T(!new)>(fs: seq<Fila<T>>, p: Fila<T> -> bool): (r: seq<Fila<T>>)
    ensures |r| <= |fs|
    ensures forall x :: x in r ==> x in fs && p(x)
  {
    if fs == [] then []
    else (if p(fs[0]) then [fs[0]] else []) + Donde(fs[1..], p)
  }

  /** The filter keeps every row that satisfies `p`. */
  lemma {:induction false} DondeCompleto<T(!new)>(fs: seq<Fila<T>>, p: Fila<T> -> bool)
    ensures forall x :: x in fs && p(x) ==> x in Donde(fs, p)
  {
    if fs != [] {
      DondeCompleto(fs[1..], p);
      forall x | x in fs && p(x)
        ensures x in Donde(fs, p)
      {
        if x != fs[0] {
          var i :| 0 <= i < |fs| && fs[i] == x;
          assert fs[1..][i - 1] == x;
        }
      }
    }
  }

  /** `SELECT COUNT(*) ... WHERE <p>` is positive. */
  function Hay<T(!new)>(fs: seq<Fila<T>>, p: Fila<T> -> bool): (b: bool)
    ensures b <==> exists i :: 0 <= i < |fs| && p(fs[i])
  {
    var r := Donde(fs, p);
    DondeCompleto(fs, p);
    assert r != [] ==> r[0] in r;
    assert forall i :: 0 <= i < |fs| && p(fs[i]) ==> fs[i] in r;
    |r| > 0
  }

  /** Looking a key up after an `UPDATE ... WHERE id = ?` finds the rewritten row, or the old one under another key. */
  lemma {:induction false} BuscarModificadas<T>(fs: seq<Fila<T>>, id: nat, f: T -> T, otro: nat)
    ensures Buscar(Modificadas(fs, id, f), id) == (if Buscar(fs, id).Some? then Some(f(Buscar(fs, id).value)) else None)
    ensures otro != id ==> Buscar(Modificadas(fs, id, f), otro) == Buscar(fs, otro)
  {
    if fs != [] {
      assert Modificadas(fs, id, f)[1..] == Modificadas(fs[1..], id, f);
      BuscarModificadas(fs[1..], id, f, otro);
    }
  }

  lemma {:induction false} ClavesValidasCons<T>(a: Fila<T>, t: seq<Fila<T>>, ultimo: nat)
    requires 0 < a.id <= ultimo && ClavesValidas(t, ultimo)
    requires forall x :: x in t ==> a.id < x.id
    ensures ClavesValidas([a] + t, ultimo)
  {
    var s := [a] + t;
    forall i, j | 0 <= i < j < |s| ensures s[i].id < s[j].id {
      assert s[j] == t[j - 1];
      if i > 0 { assert s[i] == t[i - 1]; }
    }
  }

  /** Filtering rows keeps keys valid. */
  lemma {:induction false} ClavesValidasDonde<T(!new)>(fs: seq<Fila<T>>, ultimo: nat, p: Fila<T> -> bool)
    requires ClavesValidas(fs, ultimo)
    ensures ClavesValidas(Donde(fs, p), ultimo)
  {
    if fs != [] {
      var t := fs[1..];
      assert ClavesValidas(t, ultimo);
      ClavesValidasDonde(t, ultimo, p);
      if p(fs[0]) {
        forall x | x in Donde(t, p) ensures fs[0].id < x.id {
          var k :| 0 <= k < |t| && t[k] == x;
          assert fs[k + 1] == x;
        }
        ClavesValidasCons(fs[0], Donde(t, p), ultimo);
      } else {
        assert Donde(fs, p) == Donde(t, p);
      }
    }
  }

  /** Filtering a non-empty table: the first row is kept exactly when it passes. */
  lemma {:induction false} DondePrimero<T(!new)>(fs: seq<Fila<T>>, p: Fila<T> -> bool)
    requires fs != []
    ensures p(fs[0]) ==> Donde(fs, p) == [fs[0]] + Donde(fs[1..], p)
    ensures !p(fs[0]) ==> Donde(fs, p) == Donde(fs[1..], p)
  {
    if !p(fs[0]) {
      assert [] + Donde(fs[1..], p) == Donde(fs[1..], p);
    }
  }

  /** The positions, counted from `base`, of the rows that pass `p`. */
  function Indices<T>(fs: seq<Fila<T>>, p: Fila<T> -> bool, base: nat): seq<nat> {
    if fs == [] then []
    else (if p(fs[0]) then [base] else []) + Indices(fs[1..], p, base + 1)
  }

  /** Unfolding the positions of a non-empty table by its first row. */
  lemma {:induction false} IndicesPrimero<T>(fs: seq<Fila<T>>, p: Fila<T> -> bool, base: nat)
    requires fs != []
    ensures p(fs[0]) ==> Indices(fs, p, base) == [base] + Indices(fs[1..], p, base + 1)
    ensures !p(fs[0]) ==> Indices(fs, p, base) == Indices(fs[1..], p, base + 1)
  {
    if !p(fs[0]) {
      assert [] + Indices(fs[1..], p, base + 1) == Indices(fs[1..], p, base + 1);
    }
  }

  /** Each position, counted from `base`, names the row at the same place of `xs`. */
  ghost predicate EnSitio<T>(fs: seq<Fila<T>>, xs: seq<Fila<T>>, ps: seq<nat>, base: nat) {
    && |ps| == |xs|
    && forall k :: 0 <= k < |ps| ==> base <= ps[k] < base + |fs| && xs[k] == fs[ps[k] - base]
  }

  /** The positions of the kept rows, in order, are where those rows sit in the table. */
  lemma {:induction false} IndicesDonde<T(!new)>(fs: seq<Fila<T>>, p: Fila<T> -> bool, base: nat)
    ensures EnSitio(fs, Donde(fs, p), Indices(fs, p, base), base)
  {
    if fs != [] {
      IndicesDonde(fs[1..], p, base + 1);
      DondePrimero(fs, p);
      IndicesPrimero(fs, p, base);
      if p(fs[0]) {
        EnSitioConPrimero(fs, Donde(fs[1..], p), Indices(fs[1..], p, base + 1), base);
      } else {
        EnSitioSinPrimero(fs, Donde(fs[1..], p), Indices(fs[1..], p, base + 1), base);
      }
    }
  }

  lemma {:induction false} EnSitioConPrimero<T>(fs: seq<Fila<T>>, ys: seq<Fila<T>>, qs: seq<nat>, base: nat)
    requires fs != [] && EnSitio(fs[1..], ys, qs, base + 1)
    ensures EnSitio(fs, [fs[0]] + ys, [base] + qs, base)
  {
    var ps, xs := [base] + qs, [fs[0]] + ys;
    forall k | 0 <= k < |ps|
      ensures base <= ps[k] < base + |fs| && xs[k] == fs[ps[k] - base]
    {
      if k > 0 {
        assert ps[k] == qs[k - 1] && xs[k] == ys[k - 1];
      }
    }
  }

  lemma {:induction false} EnSitioSinPrimero<T>(fs: seq<Fila<T>>, ys: seq<Fila<T>>, qs: seq<nat>, base: nat)
    requires fs != [] && EnSitio(fs[1..], ys, qs, base + 1)
    ensures EnSitio(fs, ys, qs, base)
  {
  }

  /** The positions are exactly those of the rows that pass. */
  lemma {:induction false} IndicesExactos<T>(fs: seq<Fila<T>>, p: Fila<T> -> bool, base: nat)
    ensures forall x :: x in Indices(fs, p, base) ==> base <= x
    ensures forall i :: 0 <= i < |fs| ==> (base + i in Indices(fs, p, base) <==> p(fs[i]))
  {
    if fs != [] {
      var resto := fs[1..];
      IndicesExactos(resto, p, base + 1);
      var ps, qs := Indices(fs, p, base), Indices(resto, p, base + 1);
      assert ps == (if p(fs[0]) then [base] else []) + qs;
      forall i | 0 <= i < |fs|
        ensures base + i in ps <==> p(fs[i])
      {
        if i > 0 {
          assert fs[i] == resto[i - 1];
          assert base + i == (base + 1) + (i - 1);
        }
      }
    }
  }

  /** A filter no row passes selects nothing. */
  lemma {:induction false} DondeVacio<T(!new)>(fs: seq<Fila<T>>, p: Fila<T> -> bool)
    requires forall i :: 0 <= i < |fs| ==> !p(fs[i])
    ensures Donde(fs, p) == []
  {
    if fs != [] {
      assert !p(fs[0]);
      DondeVacio(fs[1..], p);
    }
  }

  /** Filtering distributes over appending rows. */
  lemma {:induction false} DondeConcat<T(!new)>(a: seq<Fila<T>>, b: seq<Fila<T>>, p: Fila<T> -> bool)
    ensures Donde(a + b, p) == Donde(a, p) + Donde(b, p)
  {
    if a == [] {
      assert a + b == b;
    } else {
      assert (a + b)[1..] == a[1..] + b;
      DondeConcat(a[1..], b, p);
    }
  }

  /** Rewriting rows never touches keys, so valid keys stay valid. */
  lemma {:induction false} ClavesValidasModificadas<T>(fs: seq<Fila<T>>, ultimo: nat, id: nat, f: T -> T)
    requires ClavesValidas(fs, ultimo)
    ensures ClavesValidas(Modificadas(fs, id, f), ultimo)
  {
  }

  /** A table: its rows and the last key it handed out. */
  class Tabla<T(!new)> {
    var filas: seq<Fila<T>>
    var ultimoId: nat

    ghost predicate Valida()
      reads this
    {
      ClavesValidas(filas, ultimoId)
    }

    constructor ()
      ensures filas == [] && ultimoId == 0 && Valida()
    {
      filas := [];
      ultimoId := 0;
    }

    /** `INSERT`: the row gets the next key and goes last; `cursor.lastrowid` is that key. */
    method Insertar(d: T) returns (id: nat)
      requires Valida()
      modifies this
      ensures Valida()
      ensures id == old(ultimoId) + 1 && ultimoId == id
      ensures filas == old(filas) + [Fila(id, d)]
    {
      ultimoId := ultimoId + 1;
      id := ultimoId;
      filas := filas + [Fila(id, d)];
    }

    /** `UPDATE ... WHERE id = ?`. */
    method Modificar(id: nat, f: T -> T)
      requires Valida()
      modifies this
      ensures Valida()
      ensures filas == Modificadas(old(filas), id, f) && ultimoId == old(ultimoId)
    {
      ClavesValidasModificadas(filas, ultimoId, id, f);
      filas := Modificadas(filas, id, f);
    }

    /** `DELETE ... WHERE <p>`. */
    method Eliminar(p: Fila<T> -> bool)
      requires Valida()
      modifies this
      ensures Valida()
      ensures filas == Sin(old(filas), p) && ultimoId == old(ultimoId)
    {
      ClavesValidasDonde(filas, ultimoId, x => !p(x));
      filas := Sin(filas, p);
    }
  }
}
