/** Record shapes shared by several parts of the console (src/types). */
module Types {
  import opened Js

  /** The envelope every backend call resolves to. */
  datatype BaseResponse<T> = BaseResponse(sucesso: bool, data: T, mensagem: string, erros: seq<string>)

  /** The user object the login endpoint returns, kept whole. */
  datatype Usuario = Usuario(json: string)

  /** What `loginRequest` resolves to when the login response was ok (`data.data`). */
  datatype LoginResponse = LoginResponse(accessToken: Option<string>, refreshToken: Option<string>, user: Option<Usuario>)

  /** A date as the backend sends it (an ISO text). */
  type DateText = string

  /** A driver as the backend returns it: every field may be missing. */
  datatype Motorista = Motorista(
    id: Option<int>,
    cpf: Option<string>,
    status: Option<int>,
    contato: Option<string>,
    email: Option<string>,
    primeiroNome: Option<string>,
    ultimoNome: Option<string>,
    perfil: Option<int>,
    planoId: Option<int>,
    usuarioValidado: Option<bool>,
    enderecoPrincipalId: Option<int>,
    senha: Option<string>,
    refreshToken: Option<string>,
    refreshTokenExpiryTime: Option<DateText>,
    empresaId: Option<int>,
    cnh: Option<string>,
    vencimento: Option<DateText>,
    tipoCNH: Option<int>,
    foto: Option<string>)

  /** A route as the backend returns it and as the route form edits it; the address, the
      vehicle object and the in-progress flag are not part of this model. */
  datatype Rota = Rota(
    id: Option<int>,
    nome: Option<string>,
    veiculoId: Option<int>,
    horario: Option<string>,
    diaSemana: Option<int>,
    tipoRota: Option<int>,
    status: Option<int>,
    deveBuscarRotaNoGoogleMaps: Option<bool>)

  /** The empty object `{}`: a driver with no field at all. */
  const EmptyMotorista := Motorista(None, None, None, None, None, None, None, None, None, None,
                                    None, None, None, None, None, None, None, None, None)
}
