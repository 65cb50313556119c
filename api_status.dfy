/** components/api-status.tsx: the connection badge, the settings dialog's
    status texts and the nickname editor. The health request is one
    `Api.Attempt` (a timeout is a `NetworkError`); `localStorage`'s
    "user_nickname" entry is the field `storedNickname`. */
module ApiStatus {
  import opened Types
  import opened Text
  import Api

  /** `isOnline`: None is `null`, before the first check has answered. */
  type Status = Option<bool>

  /** The header badge. */
  function BadgeText(s: Status): (t: string)
    ensures s == Some(true) ==> t == "API Conectada"
    ensures s == Some(false) ==> t == "Modo Demo"
    ensures s.None? ==> t == "Verificando..."
  {
    if s == Some(true) then "API Conectada" else if s == Some(false) then "Modo Demo" else "Verificando..."
  }

  /** The badge variant, shared by both badges. */
  function BadgeVariant(s: Status): (v: string)
    ensures s == Some(true) ==> v == "default"
    ensures s == Some(false) ==> v == "destructive"
    ensures s.None? ==> v == "secondary"
  {
    if s == Some(true) then "default" else if s == Some(false) then "destructive" else "secondary"
  }

  /** The dialog's connection badge and the line below it. */
  function ConnectionText(s: Status): (t: (string, string))
    ensures s == Some(true) ==> t == ("Conectada", "Usando datos reales de la API")
    ensures s == Some(false) ==> t == ("Desconectada", "Usando datos de demostración")
    ensures s.None? ==> t == ("Verificando...", "Verificando estado de conexión...")
  {
    if s == Some(true) then ("Conectada", "Usando datos reales de la API")
    else if s == Some(false) then ("Desconectada", "Usando datos de demostración")
    else ("Verificando...", "Verificando estado de conexión...")
  }

  /** The three states are told apart by every text. */
  lemma TextsDistinguishStates(s: Status, t: Status)
    requires s != t
    ensures BadgeText(s) != BadgeText(t) && BadgeVariant(s) != BadgeVariant(t)
    ensures ConnectionText(s).0 != ConnectionText(t).0
  {
    assert "API Conectada"[0] != "Modo Demo"[0] && "Modo Demo"[0] != "Verificando..."[0];
    assert "API Conectada"[0] != "Verificando..."[0];
    assert "default"[2] != "destructive"[2];
    assert "default"[0] != "secondary"[0] && "destructive"[0] != "secondary"[0];
    assert "Conectada"[0] != "Desconectada"[0] && "Conectada"[0] != "Verificando..."[0];
    assert "Desconectada"[0] != "Verificando..."[0];
    match s {
      case None =>
      case Some(b) => assert s == Some(true) || s == Some(false);
    }
    match t {
      case None =>
      case Some(b) => assert t == Some(true) || t == Some(false);
    }
  }

  class StatusPanel {
    var isOnline: Status
    var nickname: string
    var tempNickname: string
    var isDialogOpen: bool
    /** The "user_nickname" entry of `localStorage`. */
    var storedNickname: Option<string>
    /** The description of the last toast shown, if any. */
    var toast: Option<string>

    /** The nickname shown is the one `getUserNickname` hands to the API. */
    ghost predicate Valid()
      reads this
    {
      nickname == Api.UserNickname(storedNickname)
    }

    /** Mounting: the nickname is read into both fields; the status is unknown
        until `CheckApiStatus` answers. */
    constructor (stored: Option<string>)
      ensures storedNickname == stored && isOnline.None? && !isDialogOpen && toast.None?
      ensures nickname == Api.UserNickname(stored) && tempNickname == nickname
      ensures Valid()
    {
      storedNickname := stored;
      nickname := Api.UserNickname(stored);
      tempNickname := nickname;
      isOnline := None;
      isDialogOpen := false;
      toast := None;
    }

    /** `checkApiStatus`: online exactly when the health request answered with
        a 2xx status in time. */
    method CheckApiStatus(health: Api.Attempt)
      modifies this
      ensures isOnline == Some(Api.CheckHealth(health))
      ensures nickname == old(nickname) && tempNickname == old(tempNickname)
      ensures storedNickname == old(storedNickname) && isDialogOpen == old(isDialogOpen) && toast == old(toast)
    {
      isOnline := Some(Api.CheckHealth(health));
    }

    /** Typing in the nickname field. */
    method EditNickname(value: string)
      modifies this
      ensures tempNickname == value
      ensures nickname == old(nickname) && storedNickname == old(storedNickname) && isOnline == old(isOnline)
      ensures isDialogOpen == old(isDialogOpen) && toast == old(toast)
    {
      tempNickname := value;
    }

    /** `handleSaveNickname`: a nickname that is not blank is stored trimmed,
        shown, announced, and the dialog closes; a blank one changes nothing. */
    method SaveNickname()
      requires Valid()
      modifies this
      ensures Valid()
      ensures Trim(old(tempNickname)) != "" ==>
        storedNickname == Some(Trim(old(tempNickname))) && nickname == Trim(old(tempNickname))
        && !isDialogOpen && toast == Some("Tu nickname ahora es: " + Trim(old(tempNickname)))
      ensures Trim(old(tempNickname)) == "" ==>
        storedNickname == old(storedNickname) && nickname == old(nickname)
        && isDialogOpen == old(isDialogOpen) && toast == old(toast)
      ensures tempNickname == old(tempNickname) && isOnline == old(isOnline)
    {
      var trimmed := Trim(tempNickname);
      if trimmed != "" {
        storedNickname := Some(trimmed);
        nickname := trimmed;
        isDialogOpen := false;
        toast := Some("Tu nickname ahora es: " + trimmed);
      }
    }

    /** Opening or closing the dialog, including "Cancelar". */
    method SetDialogOpen(open: bool)
      modifies this
      ensures isDialogOpen == open
      ensures nickname == old(nickname) && tempNickname == old(tempNickname)
      ensures storedNickname == old(storedNickname) && isOnline == old(isOnline) && toast == old(toast)
    {
      isDialogOpen := open;
    }
  }

  /** A saved nickname never has surrounding white space. */
  lemma SavedNicknameIsTrimmed(value: string)
    requires Trim(value) != ""
    ensures !IsWs(Trim(value)[0]) && !IsWs(Trim(value)[|Trim(value)| - 1])
    ensures Api.UserNickname(Some(Trim(value))) == Trim(value)
  {
  }
}
