/** The server-owned records the client sees, as plain values. */
module Domain {
  import opened Common

  /** The role string that gates every patient-scoped lookup. */
  const PatientRole: string := "paciente"

  /** A logged-in user as the login endpoint returns it. */
  datatype Usuario = Usuario(id: int, nome: string, email: string, tipo: string)

  /** A patient profile, linked to its user by `usuarioId`. */
  datatype Paciente = Paciente(
    id: int,
    usuarioId: int,
    nome: string,
    dataNascimento: Option<string>,
    telefone: Option<string>,
    endereco: Option<string>,
    pontos: int,
    ultimaConsulta: Option<string>)

  /** JavaScript truthiness of an optional patient id: null and 0 both
      count as absent. */
  predicate HasPatientId(pacienteId: Option<int>)
  {
    pacienteId.Some? && pacienteId.value != 0
  }

  predicate IsPatient(u: Usuario)
  {
    u.tipo == PatientRole
  }
}
