/** The session store behind `AuthProvider`: the logged-in user, the
    patient profile derived from it and the `loading` flag, together with
    the two persisted keys (`@OdontoCare:token`, `@OdontoCare:usuario`) that
    the authentication service reads and writes. */
module Session {
  import opened Common
  import opened Domain

  /** What the login endpoint answers: a bearer token and the user. */
  datatype LoginResponse = LoginResponse(token: string, usuario: Usuario)

  /** `Partial<Paciente>`: any field of a patient may be sent; absent ones
      are left out of the request body. */
  datatype PacienteParcial = PacienteParcial(
    id: Option<int>,
    usuarioId: Option<int>,
    nome: Option<string>,
    dataNascimento: Option<string>,
    telefone: Option<string>,
    endereco: Option<string>,
    pontos: Option<int>,
    ultimaConsulta: Option<string>)

  /** The value the provider hands to its consumers. */
  datatype AuthState = AuthState(usuario: Option<Usuario>, paciente: Option<Paciente>, loading: bool)

  /** `useAuth`: the provider's value, or an error outside any provider. */
  function UseAuth(context: Option<AuthState>): (r: Result<AuthState>)
    ensures r.Err? <==> context.None?
    ensures r.Ok? ==> r.value == context.value
  {
    match context
    case None => Err
    case Some(value) => Ok(value)
  }

  class AuthProvider {
    var usuario: Option<Usuario>
    var paciente: Option<Paciente>
    var loading: bool
    /** The persisted `@OdontoCare:token` entry. */
    var storedToken: Option<string>
    /** The persisted `@OdontoCare:usuario` entry. */
    var storedUsuario: Option<Usuario>

    /** The provider as first rendered, over whatever the device persisted. */
    constructor (storedToken: Option<string>, storedUsuario: Option<Usuario>)
      ensures usuario == None && paciente == None && loading
      ensures this.storedToken == storedToken && this.storedUsuario == storedUsuario
    {
      usuario := None;
      paciente := None;
      loading := true;
      this.storedToken := storedToken;
      this.storedUsuario := storedUsuario;
    }

    /** The context value: the current session, as `useAuth` hands it out. */
    function Value(): (v: AuthState)
      reads this
      ensures v.usuario == usuario && v.paciente == paciente && v.loading == loading
    {
      AuthState(usuario, paciente, loading)
    }

    /** `verificarAuth`, run once on mount. `lookup` is what the patient
        lookup answers if called (an empty answer is `Ok(None)`). Returns
        whether that lookup was made. */
    method VerificarAuth(lookup: Result<Option<Paciente>>) returns (lookedUp: bool)
      modifies this`usuario, this`paciente, this`loading
      ensures !loading
      ensures usuario == if storedUsuario.Some? then storedUsuario else old(usuario)
      ensures lookedUp <==> storedUsuario.Some? && IsPatient(storedUsuario.value)
      ensures paciente == if lookedUp && lookup.Ok? && lookup.value.Some? then lookup.value else old(paciente)
    {
      lookedUp := false;
      var usuarioLogado := storedUsuario;
      if usuarioLogado.Some? {
        usuario := usuarioLogado;
        if IsPatient(usuarioLogado.value) {
          lookedUp := true;
          if lookup.Ok? && lookup.value.Some? {
            paciente := lookup.value;
          }
        }
      }
      loading := false;
    }

    /** `login`. `response` is what the login endpoint answers and `lookup`
        what the patient lookup answers if called. Returns whether the call
        threw, and whether the patient lookup was made. */
    method Login(email: string, senha: string, response: Result<LoginResponse>,
                 lookup: Result<Option<Paciente>>)
      returns (threw: bool, lookedUp: bool)
      modifies this
      ensures !loading
      ensures response.Err? ==>
        && threw && !lookedUp
        && usuario == old(usuario) && paciente == old(paciente)
        && storedToken == old(storedToken) && storedUsuario == old(storedUsuario)
      ensures response.Ok? ==>
        && usuario == Some(response.value.usuario)
        && storedToken == Some(response.value.token)
        && storedUsuario == Some(response.value.usuario)
        && (lookedUp <==> IsPatient(response.value.usuario))
        && (threw <==> lookedUp && lookup.Err?)
        && paciente == (if lookedUp && lookup.Ok? && lookup.value.Some? then lookup.value else old(paciente))
    {
      threw, lookedUp := false, false;
      loading := true;
      if response.Err? {
        threw := true;
      } else {
        var usuarioLogado := response.value.usuario;
        storedToken := Some(response.value.token);
        storedUsuario := Some(usuarioLogado);
        usuario := Some(usuarioLogado);
        if IsPatient(usuarioLogado) {
          lookedUp := true;
          if lookup.Err? {
            threw := true;
          } else if lookup.value.Some? {
            paciente := lookup.value;
          }
        }
      }
      loading := false;
    }

    /** `logout`. `removal` is how clearing the two persisted keys went.
        Returns whether the call threw. */
    method Logout(removal: Outcome) returns (threw: bool)
      modifies this
      ensures !loading && (threw <==> removal == Failed)
      ensures removal == Done ==>
        usuario == None && paciente == None && storedToken == None && storedUsuario == None
      ensures removal == Failed ==>
        && usuario == old(usuario) && paciente == old(paciente)
        && storedToken == old(storedToken) && storedUsuario == old(storedUsuario)
    {
      loading := true;
      threw := removal == Failed;
      if removal == Done {
        storedToken := None;
        storedUsuario := None;
        usuario := None;
        paciente := None;
      }
      loading := false;
    }

    /** `atualizarPaciente`. `response` is what the partial-update endpoint
        answers: on success it replaces the profile outright. Returns the
        request sent and whether the call threw. */
    method AtualizarPaciente(id: int, dados: PacienteParcial, response: Result<Paciente>)
      returns (request: (int, PacienteParcial), threw: bool)
      modifies this`paciente
      ensures request == (id, dados)
      ensures threw <==> response.Err?
      ensures paciente == if response.Ok? then Some(response.value) else old(paciente)
    {
      request := (id, dados);
      threw := response.Err?;
      if response.Ok? {
        paciente := Some(response.value);
      }
    }
  }

  /** A second successful logout finds and leaves the same signed-out state. */
  method LogoutTwice(provider: AuthProvider)
    modifies provider
    ensures provider.usuario == None && provider.paciente == None && !provider.loading
    ensures provider.storedToken == None && provider.storedUsuario == None
  {
    var _ := provider.Logout(Done);
    var before := provider.Value();
    var _ := provider.Logout(Done);
    assert provider.Value() == before;
  }

  /** A failed login on a fresh install leaves nothing persisted, so the
      next start-up check finds no user and makes no lookup. */
  method FailedLoginThenRestart(email: string, senha: string, lookup: Result<Option<Paciente>>)
    returns (provider: AuthProvider, lookedUp: bool)
    ensures provider.usuario == None && provider.paciente == None && !provider.loading
    ensures !lookedUp
  {
    provider := new AuthProvider(None, None);
    var threw, _ := provider.Login(email, senha, Err, lookup);
    assert threw;
    lookedUp := provider.VerificarAuth(lookup);
  }
}
