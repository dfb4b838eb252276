/** The alerts screen: the two read-flag patches it applies to its list after
    the server confirms, and the guards around them. */
module Alerts {
  import opened Common
  import opened Domain

  datatype Alerta = Alerta(
    id: int,
    pacienteId: int,
    titulo: string,
    descricao: Option<string>,
    data: string,
    lido: bool)

  /** `alertas.map(a => a.id === id ? { ...a, lido: true } : a)`. */
  function LidoPatch(alertas: seq<Alerta>, id: int): (r: seq<Alerta>)
    ensures |r| == |alertas|
    ensures forall i :: 0 <= i < |r| ==> r[i].lido == (alertas[i].lido || alertas[i].id == id)
    ensures forall i :: 0 <= i < |r| ==> r[i].(lido := alertas[i].lido) == alertas[i]
  {
    seq(|alertas|, i requires 0 <= i < |alertas| =>
      if alertas[i].id == id then alertas[i].(lido := true) else alertas[i])
  }

  /** `alertas.map(a => ({ ...a, lido: true }))`. */
  function TodosLidosPatch(alertas: seq<Alerta>): (r: seq<Alerta>)
    ensures |r| == |alertas|
    ensures forall i :: 0 <= i < |r| ==> r[i].lido
    ensures forall i :: 0 <= i < |r| ==> r[i].(lido := alertas[i].lido) == alertas[i]
  {
    seq(|alertas|, i requires 0 <= i < |alertas| => alertas[i].(lido := true))
  }

  /** Marking one alert twice is marking it once. */
  lemma LidoPatchIdempotent(alertas: seq<Alerta>, id: int)
    ensures LidoPatch(LidoPatch(alertas, id), id) == LidoPatch(alertas, id)
  {
    var once := LidoPatch(alertas, id);
    var twice := LidoPatch(once, id);
    forall i | 0 <= i < |once| ensures twice[i] == once[i] {
      assert twice[i].(lido := once[i].lido) == once[i];
    }
  }

  /** Marking everything twice is marking it once. */
  lemma TodosLidosPatchIdempotent(alertas: seq<Alerta>)
    ensures TodosLidosPatch(TodosLidosPatch(alertas)) == TodosLidosPatch(alertas)
  {
    var once := TodosLidosPatch(alertas);
    var twice := TodosLidosPatch(once);
    forall i | 0 <= i < |once| ensures twice[i] == once[i] {
      assert twice[i].(lido := once[i].lido) == once[i];
    }
  }

  /** Marking everything after marking one alert is just marking everything. */
  lemma TodosLidosAbsorbsLido(alertas: seq<Alerta>, id: int)
    ensures TodosLidosPatch(LidoPatch(alertas, id)) == TodosLidosPatch(alertas)
  {
    var one := LidoPatch(alertas, id);
    var all1 := TodosLidosPatch(one);
    var all0 := TodosLidosPatch(alertas);
    forall i | 0 <= i < |alertas| ensures all1[i] == all0[i] {
      assert one[i].(lido := alertas[i].lido) == alertas[i];
      assert all1[i].(lido := one[i].lido) == one[i];
      assert all0[i].(lido := alertas[i].lido) == alertas[i];
    }
  }

  /** Neither patch ever clears a read flag. */
  predicate NoneUnread(before: seq<Alerta>, after: seq<Alerta>)
  {
    |before| == |after| && forall i :: 0 <= i < |before| && before[i].lido ==> after[i].lido
  }

  lemma PatchesNeverUnread(alertas: seq<Alerta>, id: int)
    ensures NoneUnread(alertas, LidoPatch(alertas, id))
    ensures NoneUnread(alertas, TodosLidosPatch(alertas))
  {
  }

  class AlertasScreen {
    var alertas: seq<Alerta>
    var loading: bool
    var refreshing: bool
    var pacienteId: Option<int>

    constructor ()
      ensures alertas == [] && loading && !refreshing && pacienteId == None
    {
      alertas := [];
      loading := true;
      refreshing := false;
      pacienteId := None;
    }

    /** The "mark all" button is drawn only over a non-empty list. */
    predicate ShowMarcarTodos()
      reads this
      ensures ShowMarcarTodos() <==> alertas != []
    {
      |alertas| > 0
    }

    /** `carregarAlertas`. `usuario` is the stored session; `paciente` and
        `lista` are what the patient and alert lookups answer if called. */
    method CarregarAlertas(usuario: Option<Usuario>, paciente: Result<Paciente>,
                           lista: Result<seq<Alerta>>)
      returns (toLogin: bool)
      modifies this
      ensures !loading && !refreshing && (toLogin <==> usuario.None?)
      ensures usuario.None? || !IsPatient(usuario.value) || paciente.Err? ==>
        alertas == old(alertas) && pacienteId == old(pacienteId)
      ensures usuario.Some? && IsPatient(usuario.value) && paciente.Ok? ==>
        && pacienteId == Some(paciente.value.id)
        && alertas == (if lista.Ok? then lista.value else old(alertas))
    {
      loading := true;
      toLogin := false;
      if usuario.None? {
        toLogin := true;
      } else if IsPatient(usuario.value) && paciente.Ok? {
        pacienteId := Some(paciente.value.id);
        if lista.Ok? {
          alertas := lista.value;
        }
      }
      loading := false;
      refreshing := false;
    }

    /** `marcarComoLido`: the list is patched only once the server agreed. */
    method MarcarComoLido(id: int, call: Outcome)
      modifies this
      ensures alertas == if call == Done then LidoPatch(old(alertas), id) else old(alertas)
      ensures loading == old(loading) && refreshing == old(refreshing) && pacienteId == old(pacienteId)
    {
      if call == Done {
        alertas := LidoPatch(alertas, id);
      }
    }

    /** `marcarTodosComoLidos`: without a patient id no call is made and
        nothing changes. Returns the patient id sent, if any. */
    method MarcarTodosComoLidos(call: Outcome) returns (sent: Option<int>)
      modifies this
      ensures sent == (if HasPatientId(old(pacienteId)) then old(pacienteId) else None)
      ensures alertas == if sent.Some? && call == Done then TodosLidosPatch(old(alertas)) else old(alertas)
      ensures loading == old(loading) && refreshing == old(refreshing) && pacienteId == old(pacienteId)
    {
      sent := None;
      if HasPatientId(pacienteId) {
        sent := pacienteId;
        if call == Done {
          alertas := TodosLidosPatch(alertas);
        }
      }
    }
  }
}
