/** The registration screen: the form validator, the birth-date rewrite from
    `DD/MM/AAAA` to `AAAA-MM-DD`, the two payloads it sends and the
    register / create-profile / login sequence. */
module Registration {
  import opened Common
  import opened Text

  /** The six text inputs of the form. */
  datatype FormData = FormData(
    nome: string,
    email: string,
    senha: string,
    confirmarSenha: string,
    telefone: string,
    dataNascimento: string)

  datatype Field = Nome | Email | Senha | ConfirmarSenha | Telefone | DataNascimento

  /** Why the validator refused the form, in the order it checks. */
  datatype FormError = MissingRequired | PasswordMismatch | InvalidEmail | InvalidBirthDate

  datatype Verdict = Accepted | Rejected(reason: FormError)

  /** The body sent to the register endpoint. */
  datatype UsuarioData = UsuarioData(nome: string, email: string, senha: string, tipo: string)

  /** The body sent to the patient update endpoint. */
  datatype PacienteData = PacienteData(
    usuarioId: int,
    nome: string,
    dataNascimento: Option<string>,
    telefone: string,
    pontos: int)

  /** The remote calls the screen issues, in order. */
  datatype Call =
    | Register(user: UsuarioData)
    | UpdatePatient(id: int, patient: PacienteData)
    | Login(email: string, senha: string)

  // ---------------------------------------------------------------------
  // Character classes of the two regular expressions

  /** JavaScript's `\s`: the ECMAScript white-space and line-terminator
      characters. */
  predicate IsWhitespace(c: char)
  {
    || c == '\U{9}' || c == '\U{A}' || c == '\U{B}' || c == '\U{C}' || c == '\U{D}'
    || c == '\U{20}' || c == '\U{A0}' || c == '\U{1680}' || ('\U{2000}' <= c <= '\U{200A}')
    || c == '\U{2028}' || c == '\U{2029}' || c == '\U{202F}' || c == '\U{205F}'
    || c == '\U{3000}' || c == '\U{FEFF}'
  }

  /** JavaScript's `\d`: ASCII digits only. */
  predicate IsDigit(c: char)
  {
    '0' <= c <= '9'
  }

  predicate NoWhitespace(t: string)
  {
    forall k :: 0 <= k < |t| ==> !IsWhitespace(t[k])
  }

  // ---------------------------------------------------------------------
  // The e-mail pattern /\S+@\S+\.\S+/ (not anchored)

  /** The pattern matches the substring `s[a..e]`, its `@` at `at` and the
      `.` of its last group at `dot`. */
  ghost predicate EmailMatchAt(s: string, a: int, at: int, dot: int, e: int)
  {
    && 0 <= a < at && at + 1 < dot && dot + 1 < e <= |s|
    && NoWhitespace(s[a..at]) && s[at] == '@'
    && NoWhitespace(s[at + 1..dot]) && s[dot] == '.'
    && NoWhitespace(s[dot + 1..e])
  }

  /** `emailRegex.test(s)`: some substring of `s` matches. */
  ghost predicate EmailRegexMatches(s: string)
  {
    exists a, at, dot, e :: EmailMatchAt(s, a, at, dot, e)
  }

  /** The shortest possible match: one non-blank character before the `@`
      at `at`, a blank-free run up to the `.` at `dot`, and one non-blank
      character after it. */
  predicate ShortestMatchAt(s: string, at: int, dot: int)
  {
    && 1 <= at && at + 2 <= dot && dot + 2 <= |s|
    && s[at] == '@' && s[dot] == '.'
    && !IsWhitespace(s[at - 1]) && !IsWhitespace(s[dot + 1])
    && NoWhitespace(s[at + 1..dot])
  }

  /** The e-mail check as the screen runs it. */
  predicate IsEmailShaped(s: string)
    ensures IsEmailShaped(s) ==> |s| >= 5 && '@' in s && '.' in s
  {
    exists at, dot | 0 <= at < |s| && 0 <= dot < |s| :: ShortestMatchAt(s, at, dot)
  }

  /** The shortest match is a match of the regular expression. */
  lemma ShortestMatchIsMatch(s: string, at: int, dot: int)
    requires ShortestMatchAt(s, at, dot)
    ensures EmailMatchAt(s, at - 1, at, dot, dot + 2)
  {
    assert s[at - 1..at] == [s[at - 1]];
    assert s[dot + 1..dot + 2] == [s[dot + 1]];
  }

  /** Any match shrinks to the shortest one around the same `@` and `.`. */
  lemma MatchShrinks(s: string, a: int, at: int, dot: int, e: int)
    requires EmailMatchAt(s, a, at, dot, e)
    ensures ShortestMatchAt(s, at, dot)
  {
    assert s[a..at][at - 1 - a] == s[at - 1];
    assert s[dot + 1..e][0] == s[dot + 1];
  }

  /** Shrinking every `\S+` to its last / first character keeps the match,
      so the shortest-match check agrees with the regular expression. */
  lemma EmailShapeIsRegex(s: string)
    ensures IsEmailShaped(s) <==> EmailRegexMatches(s)
  {
    if IsEmailShaped(s) {
      var at, dot :| ShortestMatchAt(s, at, dot);
      ShortestMatchIsMatch(s, at, dot);
    }
    if EmailRegexMatches(s) {
      var a, at, dot, e :| EmailMatchAt(s, a, at, dot, e);
      MatchShrinks(s, a, at, dot, e);
    }
  }

  // ---------------------------------------------------------------------
  // The birth-date pattern /^\d{2}\/\d{2}\/\d{4}$/

  /** `dataRegex.test(s)`: exactly ten characters, `DD/MM/AAAA`; the day
      and month values are not range-checked. */
  predicate IsDateShaped(s: string)
    ensures IsDateShaped(s) ==> forall i :: 0 <= i < |s| ==> (s[i] == '/' <==> i == 2 || i == 5)
  {
    && |s| == 10
    && IsDigit(s[0]) && IsDigit(s[1]) && s[2] == '/'
    && IsDigit(s[3]) && IsDigit(s[4]) && s[5] == '/'
    && IsDigit(s[6]) && IsDigit(s[7]) && IsDigit(s[8]) && IsDigit(s[9])
  }

  predicate RequiredPresent(f: FormData)
  {
    f.nome != "" && f.email != "" && f.senha != "" && f.confirmarSenha != ""
  }

  /** `validarFormulario`: the first failing check, in source order, decides
      the answer. */
  function Validate(f: FormData): (v: Verdict)
    ensures v == Rejected(MissingRequired) <==> !RequiredPresent(f)
    ensures v == Rejected(PasswordMismatch) <==> RequiredPresent(f) && f.senha != f.confirmarSenha
    ensures v == Rejected(InvalidEmail) <==>
      RequiredPresent(f) && f.senha == f.confirmarSenha && !EmailRegexMatches(f.email)
    ensures v == Rejected(InvalidBirthDate) <==>
      RequiredPresent(f) && f.senha == f.confirmarSenha && EmailRegexMatches(f.email)
      && f.dataNascimento != "" && !IsDateShaped(f.dataNascimento)
    ensures v == Accepted <==>
      RequiredPresent(f) && f.senha == f.confirmarSenha && EmailRegexMatches(f.email)
      && (f.dataNascimento == "" || IsDateShaped(f.dataNascimento))
  {
    EmailShapeIsRegex(f.email);
    if !RequiredPresent(f) then Rejected(MissingRequired)
    else if f.senha != f.confirmarSenha then Rejected(PasswordMismatch)
    else if !IsEmailShaped(f.email) then Rejected(InvalidEmail)
    else if f.dataNascimento != "" && !IsDateShaped(f.dataNascimento) then Rejected(InvalidBirthDate)
    else Accepted
  }

  // ---------------------------------------------------------------------
  // Birth-date conversion

  /** The rewrite in `handleCadastro`: an empty date is sent as null; a date
      that splits on `/` into three parts becomes `parts[2]-parts[1]-parts[0]`;
      any other split also leaves it null. */
  function ToIsoDate(d: string): (r: Option<string>)
    ensures d == "" ==> r == None
    ensures r.Some? <==> d != "" && |Split(d, '/')| == 3
    ensures r.Some? ==>
      var p := Split(d, '/');
      d == p[0] + ['/'] + p[1] + ['/'] + p[2] && r.value == p[2] + ['-'] + p[1] + ['-'] + p[0]
    ensures r.Some? ==> |r.value| == |d|
  {
    if d == "" then None
    else
      var parts := Split(d, '/');
      if |parts| == 3 then
        assert parts == [parts[0], parts[1], parts[2]];
        JoinThree(parts[0], parts[1], parts[2], '/');
        JoinThree(parts[2], parts[1], parts[0], '-');
        Some(Join([parts[2], parts[1], parts[0]], '-'))
      else None
  }

  /** The inverse rewrite, from `AAAA-MM-DD` back to `DD/MM/AAAA`. */
  function FromIsoDate(iso: string): (r: Option<string>)
  {
    var parts := Split(iso, '-');
    if |parts| == 3 then Some(Join([parts[2], parts[1], parts[0]], '/')) else None
  }

  /** A date the validator accepts splits into its day, month and year. */
  lemma {:induction false} SplitDateShaped(d: string)
    requires IsDateShaped(d)
    ensures Split(d, '/') == [d[0..2], d[3..5], d[6..10]]
  {
    var parts := [d[0..2], d[3..5], d[6..10]];
    forall i | 0 <= i < 3 ensures '/' !in parts[i] {
      forall k | 0 <= k < |parts[i]| ensures parts[i][k] != '/' {
        assert IsDigit(parts[i][k]);
      }
    }
    JoinThree(d[0..2], d[3..5], d[6..10], '/');
    assert d[0..2] + ['/'] + d[3..5] + ['/'] + d[6..10] == d;
    SplitJoin(parts, '/');
  }

  /** An accepted, non-empty birth date is sent as `AAAA-MM-DD`. */
  lemma AcceptedDateConverts(d: string)
    requires IsDateShaped(d)
    ensures ToIsoDate(d) == Some(d[6..10] + "-" + d[3..5] + "-" + d[0..2])
  {
    SplitDateShaped(d);
    JoinThree(d[6..10], d[3..5], d[0..2], '-');
  }

  lemma JoinThree(a: string, b: string, c: string, sep: char)
    ensures Join([a, b, c], sep) == a + [sep] + b + [sep] + c
  {
    assert [a, b, c][1..] == [b, c];
    assert [b, c][1..] == [c];
    assert Join([c], sep) == c;
    assert Join([b, c], sep) == b + [sep] + c;
  }

  /** Any input the rewrite handles comes back unchanged from the inverse
      rewrite, provided it holds no `-` of its own. */
  lemma {:induction false} IsoDateRoundTrip(d: string)
    requires ToIsoDate(d).Some? && '-' !in d
    ensures FromIsoDate(ToIsoDate(d).value) == Some(d)
  {
    var parts := Split(d, '/');
    assert Join(parts, '/') == d;
    forall i | 0 <= i < 3 ensures '-' !in parts[i] {
      JoinContains(parts, '/', i);
    }
    var swapped := [parts[2], parts[1], parts[0]];
    SplitJoin(swapped, '-');
    assert [swapped[2], swapped[1], swapped[0]] == parts;
  }

  /** Every character of a part occurs in the joined string. */
  lemma {:induction false} JoinContains(parts: seq<string>, sep: char, i: nat)
    requires 1 <= |parts| && i < |parts|
    ensures forall c :: c in parts[i] ==> c in Join(parts, sep)
    decreases |parts|
  {
    if |parts| > 1 {
      if i > 0 {
        JoinContains(parts[1..], sep, i - 1);
        assert parts[1..][i - 1] == parts[i];
      }
      assert Join(parts, sep) == parts[0] + [sep] + Join(parts[1..], sep);
    }
  }

  /** Every date the validator accepts survives the round trip. */
  lemma AcceptedDateRoundTrip(d: string)
    requires IsDateShaped(d)
    ensures ToIsoDate(d).Some? && FromIsoDate(ToIsoDate(d).value) == Some(d)
  {
    SplitDateShaped(d);
    assert '-' !in d by {
      forall k | 0 <= k < |d| ensures d[k] != '-' {
        assert k == 2 || k == 5 || IsDigit(d[k]);
      }
    }
    IsoDateRoundTrip(d);
  }

  // ---------------------------------------------------------------------
  // Payloads

  /** The user created by registration is always a patient. */
  function UserPayload(f: FormData): (u: UsuarioData)
    ensures u.tipo == "paciente"
    ensures u.nome == f.nome && u.email == f.email && u.senha == f.senha
  {
    UsuarioData(f.nome, f.email, f.senha, "paciente")
  }

  /** The patient profile starts with zero points and points back to the
      user just created. */
  function PatientPayload(f: FormData, userId: int): (p: PacienteData)
    ensures p.usuarioId == userId && p.pontos == 0
    ensures p.nome == f.nome && p.telefone == f.telefone
    ensures p.dataNascimento == ToIsoDate(f.dataNascimento)
  {
    PacienteData(userId, f.nome, ToIsoDate(f.dataNascimento), f.telefone, 0)
  }

  /** The screen's own state: the form and the `loading` flag. */
  class CadastroScreen {
    var formData: FormData
    var loading: bool

    constructor ()
      ensures formData == FormData("", "", "", "", "", "") && !loading
    {
      formData := FormData("", "", "", "", "", "");
      loading := false;
    }

    /** `handleChange`: one field takes the new text, the others stay. */
    method HandleChange(field: Field, value: string)
      modifies this
      ensures loading == old(loading)
      ensures formData == match field
        case Nome => old(formData).(nome := value)
        case Email => old(formData).(email := value)
        case Senha => old(formData).(senha := value)
        case ConfirmarSenha => old(formData).(confirmarSenha := value)
        case Telefone => old(formData).(telefone := value)
        case DataNascimento => old(formData).(dataNascimento := value)
    {
      match field
      case Nome => formData := formData.(nome := value);
      case Email => formData := formData.(email := value);
      case Senha => formData := formData.(senha := value);
      case ConfirmarSenha => formData := formData.(confirmarSenha := value);
      case Telefone => formData := formData.(telefone := value);
      case DataNascimento => formData := formData.(dataNascimento := value);
    }

    /** `handleCadastro`. The three parameters are what the register, update
        and login endpoints answer if called; `calls` lists the calls made.
        A form the validator rejects makes no call at all; otherwise each
        call runs only when the previous one succeeded. */
    method HandleCadastro(registro: Result<int>, update: Outcome, login: Outcome)
      returns (calls: seq<Call>, registered: bool)
      modifies this
      ensures formData == old(formData)
      ensures Validate(formData) != Accepted ==> calls == [] && !registered && loading == old(loading)
      ensures Validate(formData) == Accepted ==>
        && !loading
        && 1 <= |calls| <= 3
        && calls[0] == Register(UserPayload(formData))
        && (|calls| >= 2 <==> registro.Ok?)
        && (|calls| >= 2 ==> calls[1] == UpdatePatient(registro.value, PatientPayload(formData, registro.value)))
        && (|calls| == 3 <==> registro.Ok? && update == Done)
        && (|calls| == 3 ==> calls[2] == Login(formData.email, formData.senha))
        && (registered <==> |calls| == 3 && login == Done)
    {
      calls := [];
      registered := false;
      if Validate(formData) != Accepted {
        return;
      }
      loading := true;
      var dataNascimentoFormatada := ToIsoDate(formData.dataNascimento);
      var usuarioData := UsuarioData(formData.nome, formData.email, formData.senha, "paciente");
      calls := calls + [Register(usuarioData)];
      if registro.Ok? {
        var usuarioId := registro.value;
        var pacienteData := PacienteData(usuarioId, formData.nome, dataNascimentoFormatada, formData.telefone, 0);
        calls := calls + [UpdatePatient(usuarioId, pacienteData)];
        if update == Done {
          calls := calls + [Login(formData.email, formData.senha)];
          registered := login == Done;
        }
      }
      loading := false;
    }
  }
}
