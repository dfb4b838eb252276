# OdontoCare mobile client: the rules inside the screens and the session store

A Dafny model of the logic that sits inside the OdontoCare React Native
client, a patient app for a dental clinic over a REST backend. Five parts of
the client are modelled:

- **Registration screen** (`screens/CadastroScreen.tsx`). It covers the
  fixed-order form validator and the unanchored e-mail pattern
  `\S+@\S+\.\S+`, written as character predicates. It also covers the
  `DD/MM/AAAA` birth-date pattern, the rewrite to `AAAA-MM-DD` and its
  inverse, the user and patient payloads, and the
  register → create-profile → login sequence.
- **Appointments screen** (`screens/AgendamentosScreen.tsx`). It covers the
  status colour, when cancelling is offered, the calendar-mark dictionary
  (the last appointment on a day wins) and the selected-day overlay. It also
  covers the booking form, the booking guards and the booking payload.
- **Patient profile screen** (`screens/PerfilPacienteScreen.tsx`). It covers
  the priority-ordered substring map from activity descriptions to the five
  daily checkboxes and the fold that fills them. It also covers the
  complete-or-create decision of `handleCheck`, the local flag update, each
  checkbox's points and its disabled rule.
- **Alerts screen** (`screens/AlertasScreen.tsx`). It covers the one-alert
  and all-alerts read-flag patches and their guards.
- **Session store** (`contexts/AuthContex.tsx`). `AuthProvider` is a class
  with `usuario`, `paciente` and `loading`. Its transitions are start-up,
  login, logout and profile update. The class also holds the two persisted
  keys that the authentication service writes (`services/api/Api.tsx`).

Remote calls are not executed. Each screen method takes, as parameters, the
answer each call would give (`Result<T>` is `Ok(value)` or `Err`; `Outcome`
is `Done` or `Failed`). A parameter is ignored when its call is not made.
Where a guard decides whether a request is sent, the method returns that
request, or whether the lookup was made, so the guard can be stated. This
applies to registration, booking, cancelling, checking an activity, marking
all alerts read, the profile update, start-up and login. The load methods
and `MarcarComoLido` return no record of their calls.
Instants are minutes since the epoch (UTC). A calendar day is a day number,
which stands for its `YYYY-MM-DD` key. The device's UTC offset is a
parameter of the appointments screen.

JavaScript truthiness is kept. A patient id of `0` counts as absent, as
`if (!pacienteId)` does. An empty birth date skips the date check.

Modules: `Common` (result wrappers), `Text` (`split`, `join`, `includes`),
`Domain` (users and patients), `Registration`, `Appointments`, `Activities`,
`Alerts` and `Session`.

A failed login leaves the previous identity and the persisted keys in
place.

The booking instant is the one place where the model departs from the code.
West of UTC the code books noon of the day before the chosen one (see
Findings). The booking payload and `ConfirmarAgendamento` use the corrected
instant, and the code's instant is modelled beside it.

A patient lookup on the profile screen that answers empty is stored as no
profile. Reading its id then fails before the day's activities are fetched.

## Model

| member | source | states |
|---|---|---|
| `Text.Split` | screens/CadastroScreen.tsx:112 | `split('/')` gives at least one part, no part holds the separator, and joining the parts gives back the input |
| `Text.SplitJoin` | screens/CadastroScreen.tsx:112 | splitting a join of separator-free parts gives back the parts |
| `Text.Includes` | screens/PerfilPacienteScreen.tsx:100-108 | `includes` is true exactly when the substring occurs at some position |
| `Registration.EmailShapeIsRegex` | screens/CadastroScreen.tsx:84-89 | the screen's e-mail check holds exactly when some substring matches `\S+@\S+\.\S+` |
| `Registration.IsEmailShaped` | screens/CadastroScreen.tsx:85-86 | a string that passes the e-mail check is at least five characters long and holds an `@` and a `.`; `Registration.EmailShapeIsRegex` proves it equal to the pattern |
| `Registration.IsDateShaped` | screens/CadastroScreen.tsx:93-94 | a string that passes the date check has `/` exactly at positions 2 and 5 and nowhere else |
| `Registration.Validate` | screens/CadastroScreen.tsx:72-101 | missing required fields are reported first; then a password mismatch, whatever the e-mail or date; then a bad e-mail; then a non-empty date not shaped `DD/MM/AAAA`; the form is accepted exactly when none of these holds |
| `Registration.ToIsoDate` | screens/CadastroScreen.tsx:110-116 | an empty date is sent as null. A date is converted exactly when it splits on `/` into three parts, and it becomes those parts reversed and joined by `-`, with the same length |
| `Registration.SplitDateShaped` | screens/CadastroScreen.tsx:112-113 | an accepted date splits into exactly day, month and year |
| `Registration.AcceptedDateConverts` | screens/CadastroScreen.tsx:110-116 | an accepted non-empty date is sent as `AAAA-MM-DD` built from its own characters |
| `Registration.IsoDateRoundTrip` | screens/CadastroScreen.tsx:110-116 | any date the rewrite converts comes back unchanged from the inverse rewrite, provided it holds no `-` |
| `Registration.AcceptedDateRoundTrip` | screens/CadastroScreen.tsx:92-116 | every accepted date converts and comes back unchanged |
| `Registration.JoinContains` | screens/CadastroScreen.tsx:112 | every character of a part occurs in the joined string |
| `Registration.UserPayload` | screens/CadastroScreen.tsx:119-124 | the created user has the form's name, e-mail and password and `tipo = "paciente"` |
| `Registration.PatientPayload` | screens/CadastroScreen.tsx:130-136 | the patient payload has zero points, the new user's id, the form's name and phone, and the converted birth date |
| `Registration.CadastroScreen.constructor` | screens/CadastroScreen.tsx:52-60 | the form starts empty and `loading` starts false |
| `Registration.CadastroScreen.HandleChange` | screens/CadastroScreen.tsx:65-70 | one field takes the new text and the others stay |
| `Registration.CadastroScreen.HandleCadastro` | screens/CadastroScreen.tsx:103-164 | a rejected form makes no call. Otherwise it registers a patient user, then updates the profile keyed by the new id, then logs in; each call runs only if the previous one succeeded. `loading` ends false |
| `Appointments.StatusColor` | screens/AgendamentosScreen.tsx:84-86 | the colour is total: scheduled is blue, confirmed green, cancelled red, and any other status orange |
| `Appointments.CancelOffered` | screens/AgendamentosScreen.tsx:220 | cancelling is offered exactly for the statuses drawn blue or green |
| `Appointments.DayOf` | screens/AgendamentosScreen.tsx:79-80 | the UTC calendar day of an instant is the day whose minutes contain it, rounding down before the epoch too |
| `Appointments.MarksOf` | screens/AgendamentosScreen.tsx:77-88 | the dictionary has at most one entry per appointment, and is empty exactly when the list is |
| `Appointments.BuildMarks` | screens/AgendamentosScreen.tsx:77-88 | the fill loop produces the last-write-wins dictionary of the list |
| `Appointments.MarksOfKeys` | screens/AgendamentosScreen.tsx:77-88 | the dictionary has one key per distinct appointment day and no other |
| `Appointments.MarksOfLastWins` | screens/AgendamentosScreen.tsx:78-88 | the last appointment on a day sets that day's entry |
| `Appointments.MarksOfEntries` | screens/AgendamentosScreen.tsx:81-87 | every entry is selected and marked, and has the colour of some appointment on that day |
| `Appointments.TwoAppointmentsExample` | screens/AgendamentosScreen.tsx:77-88 | a scheduled and a cancelled appointment on two days mark them blue and red |
| `Appointments.DisplayedMarks` | screens/AgendamentosScreen.tsx:272-275 | with no selection the calendar shows the stored marks; otherwise the selected day shows a plain blue selection and every other day keeps its stored mark |
| `Appointments.BookingInstantAsWritten` | screens/AgendamentosScreen.tsx:123-124 | the code's instant is local noon of the local day on which UTC midnight of the picked day falls |
| `Appointments.AsWrittenBooksDayBefore` | screens/AgendamentosScreen.tsx:123-124 | west of UTC the code's booking instant is noon of the day before the picked day |
| `Appointments.AsWrittenBrasiliaExample` | screens/AgendamentosScreen.tsx:123-124 | at UTC-3, picking 2024-06-10 books 2024-06-09 |
| `Appointments.AsWrittenAgreesEastOfUtc` | screens/AgendamentosScreen.tsx:123-124 | at or east of UTC the code's instant equals the corrected one |
| `Appointments.BookingInstant` | screens/AgendamentosScreen.tsx:123-124 | the corrected booking instant is local noon of the picked day |
| `Appointments.BookingPayload` | screens/AgendamentosScreen.tsx:126-132 | a booking is always scheduled, for the screen's patient, with the form's type and notes, at local noon of the picked day |
| `Appointments.AgendamentosScreen.constructor` | screens/AgendamentosScreen.tsx:37-47 | the initial screen state, with the form at `Consulta de rotina` |
| `Appointments.AgendamentosScreen.CalendarMarks` | screens/AgendamentosScreen.tsx:270-275 | with no selection the calendar shows exactly the stored marks |
| `Appointments.AgendamentosScreen.CarregarDados` | screens/AgendamentosScreen.tsx:56-97 | with no session it goes to login and changes nothing. For a patient it takes the patient id, the list and its marks from whichever lookups succeeded. `loading` ends false |
| `Appointments.AgendamentosScreen.HandleDateSelect` | screens/AgendamentosScreen.tsx:99-105 | the picked day becomes both the selection and the form's date; type and notes stay |
| `Appointments.AgendamentosScreen.AbrirModalNovoAgendamento` | screens/AgendamentosScreen.tsx:152-160 | the selection is cleared, the form reset to `{"", "Consulta de rotina", ""}` and the modal shown |
| `Appointments.AgendamentosScreen.ConfirmarAgendamento` | screens/AgendamentosScreen.tsx:107-150 | with no selected day, or no patient id, nothing is sent. Otherwise the booking payload is sent. On success the list reloads, the modal closes and the selection clears; on failure they stay |
| `Appointments.AgendamentosScreen.CancelarAgendamento` | screens/AgendamentosScreen.tsx:162-174 | asks for status `cancelado` and reloads only if that succeeded |
| `Activities.With` | screens/PerfilPacienteScreen.tsx:157 | the named slot takes the value and the other four are unchanged |
| `Activities.CampoOf` | screens/PerfilPacienteScreen.tsx:99-111 | a description selects the first slot, in the order breakfast, lunch, dinner, evaluation, cleaning, whose keyword it contains. It selects none exactly when it contains no keyword |
| `Activities.ApplyAtividade` | screens/PerfilPacienteScreen.tsx:99-110 | one activity changes at most the slot its description selects, and sets that slot to its completion flag |
| `Activities.MapearAtividades` | screens/PerfilPacienteScreen.tsx:98-111 | the mapping loop equals applying the day's activities in list order to a copy of the current slots |
| `Activities.MapKeepsUnmatched` | screens/PerfilPacienteScreen.tsx:98-111 | a slot that no activity selects keeps its copied value; slots are not reset |
| `Activities.MapLastWins` | screens/PerfilPacienteScreen.tsx:99-111 | when several activities select one slot, the last one in the list sets it |
| `Activities.Descricao` | screens/PerfilPacienteScreen.tsx:226-275 | each checkbox's description contains that checkbox's own keyword |
| `Activities.Disabled` | screens/PerfilPacienteScreen.tsx:233 | a checkbox is enabled exactly when its slot is unchecked and no save is running |
| `Activities.Pontos` | screens/PerfilPacienteScreen.tsx:228-276 | each brushing checkbox is worth 1, the evaluation 2, the cleaning 3 |
| `Activities.CafeRoundTrip` | screens/PerfilPacienteScreen.tsx:225-235 | the breakfast checkbox's description selects the breakfast slot |
| `Activities.AlmocoRoundTrip` | screens/PerfilPacienteScreen.tsx:236-246 | the lunch checkbox's description selects the lunch slot |
| `Activities.JantarRoundTrip` | screens/PerfilPacienteScreen.tsx:247-257 | the dinner checkbox's description selects the dinner slot |
| `Activities.NoAlmocoInAvaliacao` | screens/PerfilPacienteScreen.tsx:258-268 | the evaluation description does not contain the lunch keyword |
| `Activities.AvaliacaoRoundTrip` | screens/PerfilPacienteScreen.tsx:258-268 | the evaluation checkbox's description selects the evaluation slot |
| `Activities.LimpezaRoundTrip` | screens/PerfilPacienteScreen.tsx:269-279 | the cleaning checkbox's description selects the cleaning slot |
| `Activities.DescricaoRoundTrip` | screens/PerfilPacienteScreen.tsx:225-279 | each of the five checkbox descriptions maps back to its own slot |
| `Activities.FindByDescricao` | screens/PerfilPacienteScreen.tsx:133-135 | finds the first record whose description is exactly the given one, or reports that none has it |
| `Activities.CheckCall` | screens/PerfilPacienteScreen.tsx:133-154 | an open matching record is completed; a completed one leads to no call; with no match a completed record is created with the given points, the patient's id and the current time |
| `Activities.PerfilPacienteScreen.constructor` | screens/PerfilPacienteScreen.tsx:50-60 | all slots start unchecked, `loading` starts true and nothing is saving |
| `Activities.PerfilPacienteScreen.CheckboxDisabled` | screens/PerfilPacienteScreen.tsx:233 | a checkbox is drawn disabled exactly when its own slot is set or a save is running |
| `Activities.PerfilPacienteScreen.CarregarDados` | screens/PerfilPacienteScreen.tsx:72-121 | with no session it goes to login. For a patient it stores the lookup's answer as the profile, even an empty one. Only with a non-empty profile and a day's list does it store the list and the slots mapped from the captured base state. Other lookup failures leave the state as it was. `loading` ends false |
| `Activities.PerfilPacienteScreen.HandleCheck` | screens/PerfilPacienteScreen.tsx:123-168 | without a profile no call is made and nothing changes. Otherwise it makes the complete-or-create call. On failure the slots, list, profile and `loading` stay as they were. On success only the chosen slot becomes true, then the reload starts from the pre-check slots and `loading` ends false. `salvando` always ends false |
| `Activities.EmptyProfileThenCheck` | screens/PerfilPacienteScreen.tsx:84-130 | after a lookup that answers an empty profile, a check makes no call and sets no slot |
| `Alerts.LidoPatch` | screens/AlertasScreen.tsx:94-96 | same length and order; an alert becomes read exactly if it was read or has the id; every other field is unchanged |
| `Alerts.TodosLidosPatch` | screens/AlertasScreen.tsx:108 | same length and order; every alert is read; every other field is unchanged |
| `Alerts.LidoPatchIdempotent` | screens/AlertasScreen.tsx:94-96 | marking one alert twice equals marking it once |
| `Alerts.TodosLidosPatchIdempotent` | screens/AlertasScreen.tsx:108 | marking all twice equals marking all once |
| `Alerts.TodosLidosAbsorbsLido` | screens/AlertasScreen.tsx:94-108 | marking all after marking one equals marking all |
| `Alerts.PatchesNeverUnread` | screens/AlertasScreen.tsx:94-108 | neither patch turns a read alert unread |
| `Alerts.AlertasScreen.constructor` | screens/AlertasScreen.tsx:37-40 | empty list, loading, not refreshing, no patient id |
| `Alerts.AlertasScreen.ShowMarcarTodos` | screens/AlertasScreen.tsx:138 | the mark-all button shows exactly when the list is non-empty |
| `Alerts.AlertasScreen.CarregarAlertas` | screens/AlertasScreen.tsx:56-83 | with no session it goes to login. For a patient it stores the patient id and the list from the lookups that succeeded. `loading` and `refreshing` end false |
| `Alerts.AlertasScreen.MarcarComoLido` | screens/AlertasScreen.tsx:90-101 | the list is patched only when the server call succeeded; otherwise it is unchanged |
| `Alerts.AlertasScreen.MarcarTodosComoLidos` | screens/AlertasScreen.tsx:103-115 | without a patient id nothing is sent and nothing changes. Otherwise the list is patched only if the call succeeded |
| `Session.UseAuth` | contexts/AuthContex.tsx:129-134 | fails exactly when there is no provider value, and otherwise returns it |
| `Session.AuthProvider.constructor` | contexts/AuthContex.tsx:37-39 | starts with no user, no patient and `loading` true |
| `Session.AuthProvider.Value` | contexts/AuthContex.tsx:113-121 | the value handed out exposes exactly the current user, patient and `loading` flag |
| `Session.AuthProvider.VerificarAuth` | contexts/AuthContex.tsx:42-65 | `loading` ends false. A stored user becomes `usuario`. Only a patient is looked up, and only a non-empty answer sets `paciente` |
| `Session.AuthProvider.Login` | contexts/AuthContex.tsx:67-86 | on failure nothing changes, including the persisted keys, and the error propagates. On success the token and user are persisted and `usuario` is set. The patient is fetched exactly for a patient, and `paciente` is never cleared. `loading` ends false |
| `Session.AuthProvider.Logout` | contexts/AuthContex.tsx:88-100 | success clears the user, the patient and both persisted keys; failure changes none of them and rethrows; `loading` ends false |
| `Session.AuthProvider.AtualizarPaciente` | contexts/AuthContex.tsx:102-110 | success replaces `paciente` by the server's answer with no merge; failure leaves it and rethrows; `usuario` is never touched |
| `Session.LogoutTwice` | contexts/AuthContex.tsx:88-100 | a second logout leaves the same signed-out state |
| `Session.FailedLoginThenRestart` | contexts/AuthContex.tsx:42-86 | after a failed login on a fresh install, start-up finds no user and makes no lookup |

## Findings

| source | as written | input that shows it | evidently intended | confidence | as-written member | corrected member |
|---|---|---|---|---|---|---|
| screens/AgendamentosScreen.tsx:123-124 | `new Date("YYYY-MM-DD")` reads the date as UTC midnight, then `setHours(12, 0, 0)` sets local noon on whatever local day that midnight falls | a device at UTC-3 (Brasília) picking 2024-06-10 books 2024-06-09 at 12:00 local time | noon, local time, on the picked day | high, not executed | `Appointments.AsWrittenBooksDayBefore` | `Appointments.BookingInstant` |

## Left out

- HTTP transport, the bearer-token interceptor and AsyncStorage (`services/api/Api.tsx`) are not modelled as code. Every service call is a parameter holding its answer. The two persisted keys are fields of `Session.AuthProvider`.
- A storage write or removal that fails half-way (the second of the two keys) is not modelled. Clearing the keys either fully succeeds or changes nothing. A login whose storage writes fail is treated like a failed login call.
- Registration's automatic login goes straight to the authentication service, not through the session store. `Registration.CadastroScreen.HandleCadastro` records that call but does not model the persisted keys it writes.
- `screens/LoginScreen.tsx` and `screens/FuncionalidadesScreen.tsx` are navigation and rendering only, and are not part of this model.
- Rendering, styles, `Alert.alert` pop-ups, widgets and navigation are left out. Going to the login screen is a returned flag.
- Date display (`formatarData`, `toLocaleDateString`) depends on locale and is left out. Calendar keys are day numbers, not their `YYYY-MM-DD` text. The UTC offset is fixed, so daylight saving is not modelled.
- The booking date is a day number, so the empty string that `!selectedDate` also rejects is not modelled. The calendar never delivers it.
- Async scheduling is not modelled: the double load from mount and focus, un-cancelled requests, and the timing of `refreshing` around `onRefresh`. Each handler runs to completion before the next.
- React closures are modelled only through the `base` parameter of `Activities.PerfilPacienteScreen.CarregarDados`. Loads from the mount and focus effects see the first render's all-unchecked slots. The reload inside `handleCheck` sees the slots from before the check.
- Appointments.BookingPayload: sends the corrected booking instant (local noon of the picked day), not the code's instant, which west of UTC falls on the previous day.
- Appointments.AgendamentosScreen.ConfirmarAgendamento: sends `Appointments.BookingPayload`, so it too uses the corrected instant rather than the code's.
- An empty patient lookup is not a separate case on the alerts and appointments screens. There, reading its id throws before any state is set, so the model treats it as a failed lookup (`Err`).
- Logging (`console.error`) is left out.
