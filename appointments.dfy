/** The appointments screen: the status colour, when cancelling is offered,
    the calendar marks built from the list, the selected-day overlay, and
    the booking flow. Instants are minutes since the epoch (UTC); a calendar
    day is a day number since the epoch, standing for its `YYYY-MM-DD` key. */
module Appointments {
  import opened Common
  import opened Domain

  const MinutesPerDay: int := 1440
  const Noon: int := 720

  /** The form of the booking modal when it opens. */
  const DefaultTipo: string := "Consulta de rotina"

  datatype Agendamento = Agendamento(
    id: int,
    pacienteId: int,
    data: int,
    tipo: string,
    observacoes: string,
    status: string)

  datatype Color = Blue | Green | Red | Orange

  /** One entry of the calendar's `markedDates` dictionary. An entry without
      a `marked` key has `marked == false`. */
  datatype Mark = Mark(selected: bool, marked: bool, selectedColor: Color)

  /** The booking form; `data == None` is the empty string. */
  datatype NovoAgendamento = NovoAgendamento(data: Option<int>, tipo: string, observacoes: string)

  /** The body sent to the create endpoint. */
  datatype AgendamentoDados = AgendamentoDados(
    pacienteId: int,
    data: int,
    tipo: string,
    observacoes: string,
    status: string)

  // ---------------------------------------------------------------------
  // Display rules

  /** The status colour, used both for the list text and the calendar mark. */
  function StatusColor(status: string): (c: Color)
    ensures c == Blue <==> status == "agendado"
    ensures c == Green <==> status == "confirmado"
    ensures c == Red <==> status == "cancelado"
    ensures c == Orange <==> status !in {"agendado", "confirmado", "cancelado"}
  {
    if status == "agendado" then Blue
    else if status == "confirmado" then Green
    else if status == "cancelado" then Red
    else Orange
  }

  /** The cancel button is shown exactly for the appointments drawn blue or
      green: scheduled or confirmed ones. */
  predicate CancelOffered(status: string)
    ensures CancelOffered(status) <==> StatusColor(status) == Blue || StatusColor(status) == Green
  {
    status == "agendado" || status == "confirmado"
  }

  /** `new Date(data).toISOString().split('T')[0]`: the UTC calendar day. */
  function DayOf(instant: int): (r: int)
    ensures MinutesPerDay * r <= instant < MinutesPerDay * (r + 1)
  {
    instant / MinutesPerDay
  }

  function MarkOf(a: Agendamento): Mark
  {
    Mark(true, true, StatusColor(a.status))
  }

  /** The dictionary `carregarDados` builds: each appointment writes its day's
      entry in list order, so a later one overwrites an earlier one. */
  function MarksOf(appts: seq<Agendamento>): (r: map<int, Mark>)
    ensures |r| <= |appts|
    ensures r == map[] <==> |appts| == 0
  {
    if |appts| == 0 then map[]
    else
      var last := appts[|appts| - 1];
      MarksOf(appts[..|appts| - 1])[DayOf(last.data) := MarkOf(last)]
  }

  /** The days on which some appointment falls. */
  function DaysOf(appts: seq<Agendamento>): set<int>
  {
    set i | 0 <= i < |appts| :: DayOf(appts[i].data)
  }

  /** The fill loop of `carregarDados`. */
  method BuildMarks(response: seq<Agendamento>) returns (marcacoes: map<int, Mark>)
    ensures marcacoes == MarksOf(response)
  {
    marcacoes := map[];
    for i := 0 to |response|
      invariant marcacoes == MarksOf(response[..i])
    {
      var agendamento := response[i];
      marcacoes := marcacoes[DayOf(agendamento.data) := Mark(true, true, StatusColor(agendamento.status))];
      assert response[..i + 1][..i] == response[..i];
    }
    assert response[..|response|] == response;
  }

  /** One key per distinct appointment day, and nothing else. */
  lemma {:induction false} MarksOfKeys(appts: seq<Agendamento>)
    ensures MarksOf(appts).Keys == DaysOf(appts)
  {
    if |appts| > 0 {
      var init := appts[..|appts| - 1];
      MarksOfKeys(init);
      assert forall i :: 0 <= i < |init| ==> init[i] == appts[i];
      assert DaysOf(appts) == DaysOf(init) + {DayOf(appts[|appts| - 1].data)};
    }
  }

  /** The last appointment on a day decides that day's mark. */
  lemma {:induction false} MarksOfLastWins(appts: seq<Agendamento>, j: nat)
    requires j < |appts|
    requires forall k :: j < k < |appts| ==> DayOf(appts[k].data) != DayOf(appts[j].data)
    ensures DayOf(appts[j].data) in MarksOf(appts)
    ensures MarksOf(appts)[DayOf(appts[j].data)] == MarkOf(appts[j])
  {
    if j < |appts| - 1 {
      var init := appts[..|appts| - 1];
      assert init[j] == appts[j];
      MarksOfLastWins(init, j);
    }
  }

  /** Every stored entry is selected and marked, coloured as some
      appointment on that day. */
  lemma {:induction false} MarksOfEntries(appts: seq<Agendamento>, d: int)
    requires d in MarksOf(appts)
    ensures MarksOf(appts)[d].selected && MarksOf(appts)[d].marked
    ensures exists i :: 0 <= i < |appts| && DayOf(appts[i].data) == d
                        && MarksOf(appts)[d] == MarkOf(appts[i])
  {
    var last := appts[|appts| - 1];
    if DayOf(last.data) != d {
      var init := appts[..|appts| - 1];
      MarksOfEntries(init, d);
      var i :| 0 <= i < |init| && DayOf(init[i].data) == d && MarksOf(init)[d] == MarkOf(init[i]);
      assert init[i] == appts[i];
    } else {
      assert DayOf(appts[|appts| - 1].data) == d;
    }
  }

  /** The calendar's `markedDates` prop: the stored marks with the selected
      day, if any, replaced by a plain blue selection. */
  function DisplayedMarks(marks: map<int, Mark>, selected: Option<int>): (r: map<int, Mark>)
    ensures selected.None? ==> r == marks
    ensures selected.Some? ==> r.Keys == marks.Keys + {selected.value}
    ensures selected.Some? ==> r[selected.value] == Mark(true, false, Blue)
    ensures forall d :: d in marks && selected != Some(d) ==> d in r && r[d] == marks[d]
  {
    match selected
    case None => marks
    case Some(d) => marks[d := Mark(true, false, Blue)]
  }

  // ---------------------------------------------------------------------
  // The time of day of a new booking

  /** The local calendar day of an instant, for a device whose clock runs
      `offset` minutes ahead of UTC. */
  function LocalDay(instant: int, offset: int): int
  {
    (instant + offset) / MinutesPerDay
  }

  /** The local minute of the day of an instant. */
  function LocalMinute(instant: int, offset: int): int
  {
    (instant + offset) % MinutesPerDay
  }

  /** `new Date(selectedDate)` followed by `setHours(12, 0, 0)`: the date-only
      string is read as UTC midnight, then the local hour is set to noon on
      whatever local day that midnight falls. */
  function BookingInstantAsWritten(day: int, offset: int): (r: int)
    ensures LocalDay(r, offset) == LocalDay(day * MinutesPerDay, offset)
    ensures LocalMinute(r, offset) == Noon
  {
    var utcMidnight := day * MinutesPerDay;
    var localDay := LocalDay(utcMidnight, offset);
    assert localDay * MinutesPerDay + Noon - offset + offset == localDay * MinutesPerDay + Noon;
    localDay * MinutesPerDay + Noon - offset
  }

  /** West of UTC the booking as written lands at noon of the day before the
      one the user picked. */
  lemma AsWrittenBooksDayBefore(day: int, offset: int)
    requires -MinutesPerDay < offset < 0
    ensures LocalDay(BookingInstantAsWritten(day, offset), offset) == day - 1
    ensures LocalMinute(BookingInstantAsWritten(day, offset), offset) == Noon
  {
    var m := day * MinutesPerDay + offset;
    assert m == (day - 1) * MinutesPerDay + (MinutesPerDay + offset);
    assert m / MinutesPerDay == day - 1;
    var r := BookingInstantAsWritten(day, offset);
    assert r + offset == (day - 1) * MinutesPerDay + Noon;
  }

  /** Brasília time, three hours behind UTC, picking day 19884 (2024-06-10). */
  lemma AsWrittenBrasiliaExample()
    ensures LocalDay(BookingInstantAsWritten(19884, -180), -180) == 19883
  {
    AsWrittenBooksDayBefore(19884, -180);
  }

  /** Noon, local time, on the day the user picked. */
  function BookingInstant(day: int, offset: int): (r: int)
    ensures LocalDay(r, offset) == day
    ensures LocalMinute(r, offset) == Noon
  {
    assert day * MinutesPerDay + Noon - offset + offset == day * MinutesPerDay + Noon;
    day * MinutesPerDay + Noon - offset
  }

  /** East of UTC (or on it) the code as written already books the picked
      day, so there it agrees with the corrected instant. */
  lemma AsWrittenAgreesEastOfUtc(day: int, offset: int)
    requires 0 <= offset < MinutesPerDay
    ensures BookingInstantAsWritten(day, offset) == BookingInstant(day, offset)
  {
    assert (day * MinutesPerDay + offset) / MinutesPerDay == day;
  }

  /** The create request: always scheduled, for the screen's patient, with
      the form's type and notes, at noon local time on the picked day. */
  function BookingPayload(pacienteId: int, day: int, offset: int, form: NovoAgendamento): (p: AgendamentoDados)
    ensures p.status == "agendado" && p.pacienteId == pacienteId
    ensures p.tipo == form.tipo && p.observacoes == form.observacoes
    ensures LocalDay(p.data, offset) == day && LocalMinute(p.data, offset) == Noon
  {
    AgendamentoDados(pacienteId, BookingInstant(day, offset), form.tipo, form.observacoes, "agendado")
  }

  // ---------------------------------------------------------------------
  // The screen

  class AgendamentosScreen {
    var selectedDate: Option<int>
    var agendamentos: seq<Agendamento>
    var loading: bool
    var modalVisible: bool
    var novoAgendamento: NovoAgendamento
    var pacienteId: Option<int>
    var markedDates: map<int, Mark>
    /** The device's offset from UTC in minutes (local = UTC + offset). */
    const offset: int

    constructor (offset: int)
      ensures this.offset == offset
      ensures selectedDate == None && agendamentos == [] && loading && !modalVisible
      ensures novoAgendamento == NovoAgendamento(None, DefaultTipo, "")
      ensures pacienteId == None && markedDates == map[]
    {
      this.offset := offset;
      selectedDate := None;
      agendamentos := [];
      loading := true;
      modalVisible := false;
      novoAgendamento := NovoAgendamento(None, DefaultTipo, "");
      pacienteId := None;
      markedDates := map[];
    }

    /** The calendar as drawn while the modal is open. */
    function CalendarMarks(): (r: map<int, Mark>)
      reads this
      ensures selectedDate.None? ==> r == markedDates
    {
      DisplayedMarks(markedDates, selectedDate)
    }

    /** What `carregarDados` leaves in the list, the patient id and the marks,
        given what it found before and what the services answered. */
    ghost predicate LoadedFrom(usuario: Option<Usuario>, paciente: Result<Paciente>,
                               lista: Result<seq<Agendamento>>,
                               pid0: Option<int>, list0: seq<Agendamento>, marks0: map<int, Mark>)
      reads this
    {
      if usuario.None? || !IsPatient(usuario.value) || paciente.Err? then
        pacienteId == pid0 && agendamentos == list0 && markedDates == marks0
      else
        && pacienteId == Some(paciente.value.id)
        && (if lista.Err? then agendamentos == list0 && markedDates == marks0
            else agendamentos == lista.value && markedDates == MarksOf(lista.value))
    }

    /** `carregarDados`. `usuario` is the stored session, `paciente` and
        `lista` what the patient and appointment lookups answer if called.
        Returns whether it navigated to the login screen. */
    method CarregarDados(usuario: Option<Usuario>, paciente: Result<Paciente>,
                         lista: Result<seq<Agendamento>>)
      returns (toLogin: bool)
      modifies this
      ensures !loading && (toLogin <==> usuario.None?)
      ensures LoadedFrom(usuario, paciente, lista, old(pacienteId), old(agendamentos), old(markedDates))
      ensures selectedDate == old(selectedDate) && modalVisible == old(modalVisible)
      ensures novoAgendamento == old(novoAgendamento)
    {
      loading := true;
      toLogin := false;
      if usuario.None? {
        toLogin := true;
      } else if IsPatient(usuario.value) && paciente.Ok? {
        pacienteId := Some(paciente.value.id);
        if lista.Ok? {
          agendamentos := lista.value;
          var marcacoes := BuildMarks(lista.value);
          markedDates := marcacoes;
        }
      }
      loading := false;
    }

    /** `handleDateSelect`: the picked day becomes both the selection and the
        form's date; the type and notes stay. */
    method HandleDateSelect(day: int)
      modifies this
      ensures selectedDate == Some(day) && novoAgendamento == old(novoAgendamento).(data := Some(day))
      ensures agendamentos == old(agendamentos) && loading == old(loading)
      ensures modalVisible == old(modalVisible) && pacienteId == old(pacienteId)
      ensures markedDates == old(markedDates)
    {
      selectedDate := Some(day);
      novoAgendamento := novoAgendamento.(data := Some(day));
    }

    /** `abrirModalNovoAgendamento`: clears the selection, resets the form and
        shows the modal. */
    method AbrirModalNovoAgendamento()
      modifies this
      ensures selectedDate == None && novoAgendamento == NovoAgendamento(None, DefaultTipo, "")
      ensures modalVisible
      ensures agendamentos == old(agendamentos) && loading == old(loading)
      ensures pacienteId == old(pacienteId) && markedDates == old(markedDates)
    {
      selectedDate := None;
      novoAgendamento := NovoAgendamento(None, DefaultTipo, "");
      modalVisible := true;
    }

    /** `confirmarAgendamento`. `create` is what the create endpoint answers;
        the last three parameters feed the reload that follows a successful
        create. Returns the create request, if one was sent. */
    method ConfirmarAgendamento(create: Outcome, usuario: Option<Usuario>,
                                paciente: Result<Paciente>, lista: Result<seq<Agendamento>>)
      returns (request: Option<AgendamentoDados>)
      modifies this
      ensures old(selectedDate).None? ==>
        && request == None && loading == old(loading)
        && selectedDate == old(selectedDate) && modalVisible == old(modalVisible)
        && agendamentos == old(agendamentos) && pacienteId == old(pacienteId)
        && markedDates == old(markedDates)
      ensures old(selectedDate).Some? ==> !loading
      ensures old(selectedDate).Some? && !HasPatientId(old(pacienteId)) ==>
        && request == None
        && selectedDate == old(selectedDate) && modalVisible == old(modalVisible)
        && agendamentos == old(agendamentos) && pacienteId == old(pacienteId)
        && markedDates == old(markedDates)
      ensures old(selectedDate).Some? && HasPatientId(old(pacienteId)) ==>
        request == Some(BookingPayload(old(pacienteId).value, old(selectedDate).value, offset, old(novoAgendamento)))
      ensures request.Some? && create == Failed ==>
        && selectedDate == old(selectedDate) && modalVisible == old(modalVisible)
        && agendamentos == old(agendamentos) && pacienteId == old(pacienteId)
        && markedDates == old(markedDates)
      ensures request.Some? && create == Done ==>
        && selectedDate == None && !modalVisible
        && LoadedFrom(usuario, paciente, lista, old(pacienteId), old(agendamentos), old(markedDates))
      ensures novoAgendamento == old(novoAgendamento)
    {
      request := None;
      if selectedDate.None? {
        return;
      }
      loading := true;
      if !HasPatientId(pacienteId) {
        loading := false;
        return;
      }
      var dados := AgendamentoDados(pacienteId.value, BookingInstant(selectedDate.value, offset),
                                    novoAgendamento.tipo, novoAgendamento.observacoes, "agendado");
      request := Some(dados);
      if create == Done {
        var _ := CarregarDados(usuario, paciente, lista);
        modalVisible := false;
        selectedDate := None;
      }
      loading := false;
    }

    /** `cancelarAgendamento`: always asks for status `cancelado`, then reloads
        when that succeeded. Returns the id and status sent. */
    method CancelarAgendamento(id: int, update: Outcome, usuario: Option<Usuario>,
                               paciente: Result<Paciente>, lista: Result<seq<Agendamento>>)
      returns (sent: (int, string))
      modifies this
      ensures sent == (id, "cancelado") && !loading
      ensures update == Failed ==>
        agendamentos == old(agendamentos) && pacienteId == old(pacienteId) && markedDates == old(markedDates)
      ensures update == Done ==>
        LoadedFrom(usuario, paciente, lista, old(pacienteId), old(agendamentos), old(markedDates))
      ensures selectedDate == old(selectedDate) && modalVisible == old(modalVisible)
      ensures novoAgendamento == old(novoAgendamento)
    {
      loading := true;
      sent := (id, "cancelado");
      if update == Done {
        var _ := CarregarDados(usuario, paciente, lista);
      }
      loading := false;
    }
  }

  /** Two appointments on different days, one scheduled and one cancelled,
      mark the first day blue and the second red. */
  lemma TwoAppointmentsExample(a: Agendamento, b: Agendamento)
    requires a.status == "agendado" && b.status == "cancelado"
    requires DayOf(a.data) != DayOf(b.data)
    ensures MarksOf([a, b]) == map[DayOf(a.data) := Mark(true, true, Blue), DayOf(b.data) := Mark(true, true, Red)]
  {
    assert [a, b][..1] == [a];
    assert [a][..0] == [];
    assert MarksOf([a]) == map[DayOf(a.data) := MarkOf(a)];
    assert MarksOf([a, b]) == MarksOf([a])[DayOf(b.data) := MarkOf(b)];
  }
}
