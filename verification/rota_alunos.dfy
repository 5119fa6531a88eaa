/** The route/students page (src/pages/ConfigurarRotaAlunos.tsx): choose a route, edit the
    list of students linked to it, and on save issue one Vincular request per student added
    and one Desvincular request per student removed, computed as a diff by id. */
module RotaAlunos {
  import opened Js

  datatype Aluno = Aluno(id: int, primeiroNome: Option<string>, ultimoNome: Option<string>)

  /** An entry of the route selector: `{value: r.id, label: r.nome}`. */
  datatype RotaOption = RotaOption(value: Option<int>, caption: Option<string>)

  /** An entry of the student search box. */
  datatype AlunoOption = AlunoOption(value: int, caption: string, raw: Aluno)

  /** PUT /Routes/v1/AlunoRota/Vincular and .../Desvincular with `alunoId` and `rotaId`. */
  datatype LinkCall = Vincular(alunoId: int, rotaId: Option<int>) | Desvincular(alunoId: int, rotaId: Option<int>)

  /** GET /Pessoas/v1/Aluno/Buscar with `filtro` and `rotaId` (None is sent as ""). */
  datatype SearchCall = BuscarAlunos(filtro: string, rotaId: Option<int>)

  /** How the search request ended: it threw, or it answered with `data` (possibly null). */
  datatype SearchReply = SearchFailed | SearchData(data: Option<seq<Aluno>>)

  /** GET /Routes/v1/Rota/{rota}/Detalhe. */
  datatype DetailCall = FetchDetalhe(rota: Option<int>)

  /** How the detail request ended: it threw (or answered without `data`), or it answered
      with the route's `alunos` (possibly missing). */
  datatype DetailReply = DetailFailed | Detail(alunos: Option<seq<Aluno>>)

  datatype Validation = Valid | Invalid(erro: string)

  const SalvoComSucesso := "Configuração salva com sucesso!"

  /** `s.map(a => a.id)`. */
  function Ids(s: seq<Aluno>): (r: seq<int>)
    ensures |r| == |s| && forall i :: 0 <= i < |s| ==> r[i] == s[i].id
  {
    seq(|s|, i requires 0 <= i < |s| => s[i].id)
  }

  /** The set of ids present in `s`. */
  function IdSet(s: seq<Aluno>): set<int> {
    set a | a in s :: a.id
  }

  lemma InIds(s: seq<Aluno>, x: int)
    ensures x in Ids(s) <==> x in IdSet(s)
  {
    if x in Ids(s) {
      var i :| 0 <= i < |s| && Ids(s)[i] == x;
      assert s[i] in s;
    }
    if x in IdSet(s) {
      var a :| a in s && a.id == x;
      var i :| 0 <= i < |s| && s[i] == a;
      assert Ids(s)[i] == x;
    }
  }

  /** `s.filter(a => !ids.includes(a.id))`. */
  function Without(s: seq<Aluno>, ids: seq<int>): (r: seq<Aluno>)
    ensures |r| <= |s|
    ensures forall a :: a in r <==> a in s && a.id !in ids
  {
    if s == [] then []
    else (if s[0].id in ids then [] else [s[0]]) + Without(s[1..], ids)
  }

  /** The filter keeps the order: filtering a concatenation filters each part in place. */
  lemma {:induction false} WithoutConcat(s: seq<Aluno>, t: seq<Aluno>, ids: seq<int>)
    ensures Without(s + t, ids) == Without(s, ids) + Without(t, ids)
  {
    if s == [] {
      assert s + t == t;
    } else {
      assert (s + t)[1..] == s[1..] + t;
      WithoutConcat(s[1..], t, ids);
    }
  }

  /** A list none of whose ids is filtered is kept whole. */
  lemma {:induction false} WithoutNothing(s: seq<Aluno>, ids: seq<int>)
    requires forall a :: a in s ==> a.id !in ids
    ensures Without(s, ids) == s
  {
    if s != [] {
      assert s[0] in s;
      assert forall a :: a in s[1..] ==> a in s;
      WithoutNothing(s[1..], ids);
    }
  }

  /** No two entries share an id. */
  predicate DistinctIds(s: seq<Aluno>) {
    forall i, j :: 0 <= i < j < |s| ==> s[i].id != s[j].id
  }

  /** Filtering keeps a duplicate-free list duplicate-free. */
  lemma {:induction false} WithoutDistinct(s: seq<Aluno>, ids: seq<int>)
    requires DistinctIds(s)
    ensures DistinctIds(Without(s, ids))
  {
    if s != [] {
      WithoutDistinct(s[1..], ids);
      var rest := Without(s[1..], ids);
      forall a | a in rest
        ensures a.id != s[0].id
      {
        var k :| 0 <= k < |s[1..]| && s[1..][k] == a;
        assert s[k + 1] == a;
      }
    }
  }

  /** `novos`: the selected students whose id is not among the baseline's ids, in selected order. */
  function Novos(selected: seq<Aluno>, baseline: seq<Aluno>): (r: seq<Aluno>)
    ensures forall a :: a in r <==> a in selected && a.id !in IdSet(baseline)
  {
    forall a | a in selected { InIds(baseline, a.id); }
    Without(selected, Ids(baseline))
  }

  /** `removidos`: the baseline's students whose id is not among the selected ids, in baseline order. */
  function Removidos(selected: seq<Aluno>, baseline: seq<Aluno>): (r: seq<Aluno>)
    ensures forall a :: a in r <==> a in baseline && a.id !in IdSet(selected)
  {
    forall a | a in baseline { InIds(selected, a.id); }
    Without(baseline, Ids(selected))
  }

  /** No student is both added and removed. */
  lemma NovosRemovidosDisjoint(selected: seq<Aluno>, baseline: seq<Aluno>)
    ensures IdSet(Novos(selected, baseline)) !! IdSet(Removidos(selected, baseline))
  {
    var n, r := Novos(selected, baseline), Removidos(selected, baseline);
    forall x | x in IdSet(n)
      ensures x !in IdSet(r)
    {
      var a :| a in n && a.id == x;
      assert a in selected;
    }
  }

  /** A list all of whose ids are filtered becomes empty. */
  lemma {:induction false} WithoutAll(s: seq<Aluno>, ids: seq<int>)
    requires forall a :: a in s ==> a.id in ids
    ensures Without(s, ids) == []
  {
    if s != [] {
      assert s[0] in s;
      assert forall a :: a in s[1..] ==> a in s;
      WithoutAll(s[1..], ids);
    }
  }

  /** With the same ids on both sides there is nothing to add or remove. */
  lemma SameIdsNoChange(selected: seq<Aluno>, baseline: seq<Aluno>)
    requires IdSet(selected) == IdSet(baseline)
    ensures Novos(selected, baseline) == [] && Removidos(selected, baseline) == []
  {
    forall a | a in selected
      ensures a.id in Ids(baseline)
    {
      assert a.id in IdSet(selected);
      InIds(baseline, a.id);
    }
    WithoutAll(selected, Ids(baseline));
    forall a | a in baseline
      ensures a.id in Ids(selected)
    {
      assert a.id in IdSet(baseline);
      InIds(selected, a.id);
    }
    WithoutAll(baseline, Ids(selected));
  }

  function VincularAll(s: seq<Aluno>, rota: Option<int>): (r: seq<LinkCall>)
    ensures |r| == |s| && forall i :: 0 <= i < |s| ==> r[i] == Vincular(s[i].id, rota)
  {
    seq(|s|, i requires 0 <= i < |s| => Vincular(s[i].id, rota))
  }

  function DesvincularAll(s: seq<Aluno>, rota: Option<int>): (r: seq<LinkCall>)
    ensures |r| == |s| && forall i :: 0 <= i < |s| ==> r[i] == Desvincular(s[i].id, rota)
  {
    seq(|s|, i requires 0 <= i < |s| => Desvincular(s[i].id, rota))
  }

  /** The requests a save issues against `baseline`: one Vincular per student in `novos`,
      then one Desvincular per student in `removidos`. */
  function LinkPlan(selected: seq<Aluno>, baseline: seq<Aluno>, rota: Option<int>): (r: seq<LinkCall>)
    ensures |r| == |Novos(selected, baseline)| + |Removidos(selected, baseline)|
    ensures forall i :: 0 <= i < |r| ==> r[i].rotaId == rota
    ensures forall i :: 0 <= i < |r| && r[i].Vincular? ==>
      r[i].alunoId in IdSet(selected) && r[i].alunoId !in IdSet(baseline)
    ensures forall i :: 0 <= i < |r| && r[i].Desvincular? ==>
      r[i].alunoId in IdSet(baseline) && r[i].alunoId !in IdSet(selected)
    ensures forall i, j :: 0 <= i < j < |r| && r[j].Vincular? ==> r[i].Vincular?
  {
    var n, d := Novos(selected, baseline), Removidos(selected, baseline);
    var r := VincularAll(n, rota) + DesvincularAll(d, rota);
    forall i | 0 <= i < |r|
      ensures r[i].Vincular? ==> r[i].alunoId in IdSet(selected) && r[i].alunoId !in IdSet(baseline)
      ensures r[i].Desvincular? ==> r[i].alunoId in IdSet(baseline) && r[i].alunoId !in IdSet(selected)
    {
      if i < |n| {
        assert n[i] in n && r[i] == Vincular(n[i].id, rota);
      } else {
        assert d[i - |n|] in d && r[i] == Desvincular(d[i - |n|].id, rota);
      }
    }
    r
  }

  /** The ids linked to the route once one request has taken effect. */
  function Step(linked: set<int>, call: LinkCall): (r: set<int>)
    ensures call.Vincular? ==> r == linked + {call.alunoId}
    ensures call.Desvincular? ==> r == linked - {call.alunoId}
  {
    match call
    case Vincular(x, _) => linked + {x}
    case Desvincular(x, _) => linked - {x}
  }

  /** The ids linked to the route once `calls` have taken effect, in order, from `linked`. */
  function Apply(linked: set<int>, calls: seq<LinkCall>): set<int>
    decreases |calls|
  {
    if calls == [] then linked else Apply(Step(linked, calls[0]), calls[1..])
  }

  lemma {:induction false} ApplyConcat(linked: set<int>, a: seq<LinkCall>, b: seq<LinkCall>)
    ensures Apply(linked, a + b) == Apply(Apply(linked, a), b)
    decreases |a|
  {
    if a == [] {
      assert a + b == b;
    } else {
      assert (a + b)[0] == a[0] && (a + b)[1..] == a[1..] + b;
      ApplyConcat(Step(linked, a[0]), a[1..], b);
    }
  }

  lemma {:induction false} ApplyVincularAll(linked: set<int>, s: seq<Aluno>, rota: Option<int>)
    ensures Apply(linked, VincularAll(s, rota)) == linked + IdSet(s)
    decreases |s|
  {
    if s != [] {
      assert VincularAll(s, rota)[1..] == VincularAll(s[1..], rota);
      ApplyVincularAll(linked + {s[0].id}, s[1..], rota);
      assert IdSet(s) == {s[0].id} + IdSet(s[1..]) by {
        assert forall a :: a in s <==> a == s[0] || a in s[1..];
      }
    }
  }

  lemma {:induction false} ApplyDesvincularAll(linked: set<int>, s: seq<Aluno>, rota: Option<int>)
    ensures Apply(linked, DesvincularAll(s, rota)) == linked - IdSet(s)
    decreases |s|
  {
    if s != [] {
      assert DesvincularAll(s, rota)[1..] == DesvincularAll(s[1..], rota);
      ApplyDesvincularAll(linked - {s[0].id}, s[1..], rota);
      assert IdSet(s) == {s[0].id} + IdSet(s[1..]) by {
        assert forall a :: a in s <==> a == s[0] || a in s[1..];
      }
    }
  }

  /** Diffed against the students actually linked, the save leaves the route linked to
      exactly the selected students. */
  lemma LinkPlanReachesSelection(selected: seq<Aluno>, linked: seq<Aluno>, rota: Option<int>)
    ensures Apply(IdSet(linked), LinkPlan(selected, linked, rota)) == IdSet(selected)
  {
    var n, r := Novos(selected, linked), Removidos(selected, linked);
    ApplyConcat(IdSet(linked), VincularAll(n, rota), DesvincularAll(r, rota));
    ApplyVincularAll(IdSet(linked), n, rota);
    ApplyDesvincularAll(IdSet(linked) + IdSet(n), r, rota);
    assert IdSet(n) == IdSet(selected) - IdSet(linked);
    assert IdSet(r) == IdSet(linked) - IdSet(selected);
  }

  /** As written the diff is taken against `alunosOriginais`, which is [] until the first
      save, while the links fetched for the route only go to a ref. Example: the route has
      student 1 linked, the user replaces it by student 2 and saves; no Desvincular is sent
      and the route ends with both students. */
  lemma FirstSaveKeepsUnselectedLinks()
    ensures var linked := [Aluno(1, Some("Ana"), Some("Lima"))];
      var selected := [Aluno(2, Some("Bia"), Some("Reis"))];
      && LinkPlan(selected, [], Some(7)) == [Vincular(2, Some(7))]
      && Apply(IdSet(linked), LinkPlan(selected, [], Some(7))) == {1, 2} != IdSet(selected)
  {
    var linked := [Aluno(1, Some("Ana"), Some("Lima"))];
    var selected := [Aluno(2, Some("Bia"), Some("Reis"))];
    assert Removidos(selected, []) == [];
    WithoutNothing(selected, Ids([]));
    assert Novos(selected, []) == selected;
    assert IdSet(linked) == {1} by { assert linked[0] in linked; }
    assert IdSet(selected) == {2} by { assert selected[0] in selected; }
    var plan := LinkPlan(selected, [], Some(7));
    assert plan == [Vincular(2, Some(7))];
    assert Apply(IdSet(linked), plan) == Apply({1, 2}, plan[1..]);
  }

  /** `validar`: a missing route is reported first, then an empty student list. */
  function Validacao(rota: Option<RotaOption>, alunos: seq<Aluno>): (v: Validation)
    ensures v == Valid <==> rota.Some? && alunos != []
    ensures rota.None? ==> v == Invalid("Selecione uma rota")
    ensures rota.Some? && alunos == [] ==> v == Invalid("Selecione pelo menos um aluno")
  {
    if rota.None? then Invalid("Selecione uma rota")
    else if alunos == [] then Invalid("Selecione pelo menos um aluno")
    else Valid
  }

  /** The search box issues a request only for 3 or more characters. */
  predicate SearchRequested(input: string): (b: bool)
    ensures b <==> !(input == "" || |input| < 3)
  {
    |input| >= 3
  }

  /** A search result as an option: its id as value and "first last" as label. */
  function ToOption(a: Aluno): (o: AlunoOption)
    ensures o.value == a.id && o.raw == a
    ensures o.caption == Interpolate(a.primeiroNome) + " " + Interpolate(a.ultimoNome)
  {
    AlunoOption(a.id, Interpolate(a.primeiroNome) + " " + Interpolate(a.ultimoNome), a)
  }

  /** The options shown for a search reply: none when the request threw or `data` is null. */
  function ReplyOptions(reply: SearchReply): (r: seq<AlunoOption>)
    ensures reply.SearchFailed? || reply.data.None? ==> r == []
    ensures reply.SearchData? && reply.data.Some? ==>
      |r| == |reply.data.value| && forall i :: 0 <= i < |r| ==> r[i] == ToOption(reply.data.value[i])
  {
    match reply
    case SearchFailed => []
    case SearchData(data) =>
      var alunos := data.GetOr([]);
      seq(|alunos|, i requires 0 <= i < |alunos| => ToOption(alunos[i]))
  }

  /** Removing a listed student and then saving against the list as it was sends no
      Vincular and unlinks exactly that id. */
  lemma RemovalThenSaveUnlinks(s: seq<Aluno>, id: int)
    requires id in IdSet(s)
    ensures Novos(Without(s, [id]), s) == []
    ensures IdSet(Removidos(Without(s, [id]), s)) == {id}
  {
    var rest := Without(s, [id]);
    forall a | a in rest ensures a.id in Ids(s) {
      InIds(s, a.id);
    }
    WithoutAll(rest, Ids(s));
    var r := Removidos(rest, s);
    forall a | a in s && a.id != id ensures a.id in IdSet(rest) {
      assert a in rest;
    }
    var b :| b in s && b.id == id;
    assert forall c :: c in rest ==> c.id != id;
    assert b.id !in IdSet(rest);
    assert b in r;
  }

  class RotaAlunosPage {
    var rotaSelecionada: Option<RotaOption>
    var alunosSelecionados: seq<Aluno>
    /** The baseline of the diff: [] until a save succeeds. */
    var alunosOriginais: seq<Aluno>
    /** The students fetched as linked to the selected route. */
    var alunosOriginaisRef: seq<Aluno>
    var erro: string
    var sucesso: string

    constructor ()
      ensures rotaSelecionada == None && alunosSelecionados == [] && alunosOriginais == []
      ensures alunosOriginaisRef == [] && erro == "" && sucesso == ""
    {
      rotaSelecionada := None;
      alunosSelecionados := [];
      alunosOriginais := [];
      alunosOriginaisRef := [];
      erro := "";
      sucesso := "";
    }

    /** A route is chosen and its detail is fetched: the linked students
        (`response.data.alunos || []`) go to the ref and to the selection, not to
        `alunosOriginais`. A failed fetch leaves everything but the route as it was. */
    method SelecionarRota(rota: RotaOption, reply: DetailReply) returns (call: DetailCall)
      modifies this
      ensures rotaSelecionada == Some(rota) && call == FetchDetalhe(rota.value)
      ensures reply.DetailFailed? ==>
        alunosOriginaisRef == old(alunosOriginaisRef) && alunosSelecionados == old(alunosSelecionados)
      ensures reply.Detail? ==>
        alunosOriginaisRef == reply.alunos.GetOr([]) && alunosSelecionados == reply.alunos.GetOr([])
      ensures alunosOriginais == old(alunosOriginais) && erro == old(erro) && sucesso == old(sucesso)
    {
      rotaSelecionada := Some(rota);
      call := FetchDetalhe(rota.value);
      if reply.Detail? {
        var v := reply.alunos.GetOr([]);
        alunosOriginaisRef := v;
        alunosSelecionados := v;
      }
    }

    /** `loadAlunoOptions` for the typed `input`: no request below 3 characters, otherwise
        one search request and the reply's results as options. */
    method LoadAlunoOptions(input: string, reply: SearchReply) returns (call: Option<SearchCall>, options: seq<AlunoOption>)
      ensures !SearchRequested(input) ==> call == None && options == []
      ensures SearchRequested(input) ==> call.Some? && call.value.filtro == input && options == ReplyOptions(reply)
      ensures call.Some? ==> (call.value.rotaId.Some? <==> rotaSelecionada.Some? && TruthyNumber(rotaSelecionada.value.value))
      ensures call.Some? && call.value.rotaId.Some? ==> call.value.rotaId == rotaSelecionada.value.value
    {
      if input == "" || |input| < 3 {
        return None, [];
      }
      var rotaId := if rotaSelecionada.Some? && TruthyNumber(rotaSelecionada.value.value)
                    then rotaSelecionada.value.value else None;
      call := Some(BuscarAlunos(input, rotaId));
      options := ReplyOptions(reply);
    }

    /** Picking a search option appends its student unless one with the same id is there. */
    method AdicionarAluno(selected: Option<AlunoOption>)
      modifies this`alunosSelecionados
      ensures selected.None? || selected.value.raw.id in IdSet(old(alunosSelecionados)) ==>
        alunosSelecionados == old(alunosSelecionados)
      ensures selected.Some? && selected.value.raw.id !in IdSet(old(alunosSelecionados)) ==>
        alunosSelecionados == old(alunosSelecionados) + [selected.value.raw]
      ensures DistinctIds(old(alunosSelecionados)) ==> DistinctIds(alunosSelecionados)
    {
      if selected.None? {
        return;
      }
      var aluno := selected.value.raw;
      var alreadyAdded := aluno.id in Ids(alunosSelecionados);
      InIds(alunosSelecionados, aluno.id);
      if !alreadyAdded {
        ghost var before := alunosSelecionados;
        alunosSelecionados := alunosSelecionados + [aluno];
        forall i | 0 <= i < |before| ensures before[i].id != aluno.id {
          assert before[i] in before;
        }
      }
    }

    /** "Remover" drops every entry with that id and keeps the others in order. */
    method RemoverAluno(id: int)
      modifies this`alunosSelecionados
      ensures alunosSelecionados == Without(old(alunosSelecionados), [id])
      ensures forall a :: a in alunosSelecionados <==> a in old(alunosSelecionados) && a.id != id
      ensures DistinctIds(old(alunosSelecionados)) ==> DistinctIds(alunosSelecionados)
    {
      if DistinctIds(alunosSelecionados) {
        WithoutDistinct(alunosSelecionados, [id]);
      }
      alunosSelecionados := Without(alunosSelecionados, [id]);
    }

    /** `validar`: sets the error message and tells whether saving may go on. */
    method Validar() returns (ok: bool)
      modifies this`erro
      ensures ok <==> Validacao(rotaSelecionada, alunosSelecionados) == Valid
      ensures ok ==> erro == ""
      ensures !ok ==> erro == Validacao(rotaSelecionada, alunosSelecionados).erro
    {
      var v := Validacao(rotaSelecionada, alunosSelecionados);
      if v.Invalid? {
        erro := v.erro;
        return false;
      }
      erro := "";
      return true;
    }

    /** `handleSalvar`: after validation, the requests of the diff against `alunosOriginais`.
        `Promise.all` is handed two arrays rather than promises, so the success branch runs
        without waiting for them: the baseline becomes the selection whatever they answer. */
    method HandleSalvar() returns (calls: seq<LinkCall>)
      modifies this
      ensures rotaSelecionada == old(rotaSelecionada) && alunosSelecionados == old(alunosSelecionados)
      ensures alunosOriginaisRef == old(alunosOriginaisRef)
      ensures Validacao(old(rotaSelecionada), old(alunosSelecionados)).Invalid? ==>
        && calls == [] && erro == Validacao(old(rotaSelecionada), old(alunosSelecionados)).erro
        && alunosOriginais == old(alunosOriginais) && sucesso == old(sucesso)
      ensures Validacao(old(rotaSelecionada), old(alunosSelecionados)) == Valid ==>
        && calls == LinkPlan(alunosSelecionados, old(alunosOriginais), rotaSelecionada.value.value)
        && alunosOriginais == alunosSelecionados && erro == "" && sucesso == SalvoComSucesso
    {
      var ok := Validar();
      if !ok {
        return [];
      }
      erro := "";
      sucesso := "";
      var rota := rotaSelecionada.value.value;
      var novos := Novos(alunosSelecionados, alunosOriginais);
      var removidos := Removidos(alunosSelecionados, alunosOriginais);
      calls := VincularAll(novos, rota) + DesvincularAll(removidos, rota);
      sucesso := SalvoComSucesso;
      alunosOriginais := alunosSelecionados;
    }

    /** `handleSalvar` as evidently intended: the diff is taken against the students fetched
        as linked, and the fetched links then follow the selection. The route ends linked to
        exactly the selected students. */
    method HandleSalvarAgainstLinked() returns (calls: seq<LinkCall>)
      modifies this
      ensures rotaSelecionada == old(rotaSelecionada) && alunosSelecionados == old(alunosSelecionados)
      ensures alunosOriginais == old(alunosOriginais)
      ensures Validacao(old(rotaSelecionada), old(alunosSelecionados)).Invalid? ==>
        && calls == [] && erro == Validacao(old(rotaSelecionada), old(alunosSelecionados)).erro
        && alunosOriginaisRef == old(alunosOriginaisRef) && sucesso == old(sucesso)
      ensures Validacao(old(rotaSelecionada), old(alunosSelecionados)) == Valid ==>
        && calls == LinkPlan(alunosSelecionados, old(alunosOriginaisRef), rotaSelecionada.value.value)
        && Apply(IdSet(old(alunosOriginaisRef)), calls) == IdSet(alunosSelecionados)
        && alunosOriginaisRef == alunosSelecionados && erro == "" && sucesso == SalvoComSucesso
    {
      var ok := Validar();
      if !ok {
        return [];
      }
      erro := "";
      sucesso := "";
      var rota := rotaSelecionada.value.value;
      calls := LinkPlan(alunosSelecionados, alunosOriginaisRef, rota);
      LinkPlanReachesSelection(alunosSelecionados, alunosOriginaisRef, rota);
      sucesso := SalvoComSucesso;
      alunosOriginaisRef := alunosSelecionados;
    }
  }
}
