/**
 * The presence strip of components/collaboration/ConnectedUsers.tsx: connection status, the
 * avatars of the first five users of the roster, the overflow badge and the user count, which
 * counts the local user. `toUpperCase` is a parameter.
 */
module ConnectedUsers {
  import opened Wrappers
  import opened Strings
  import opened CollabTypes
  import opened Sequences

  const MaxAvatars: nat := 5

  function StatusText(isConnected: bool): (s: string)
    ensures s == "Conectado" <==> isConnected
    ensures s == "Desconectado" <==> !isConnected
  {
    if isConnected then "Conectado" else "Desconectado"
  }

  /** The avatar's tooltip: the name and whether the user may edit, an absent flag reading as
      read-only. */
  function Tooltip(u: ConnectedUser): (t: string)
    ensures u.canEdit == Some(true) ==> t == u.username + " (puede editar)"
    ensures u.canEdit != Some(true) ==> t == u.username + " (solo lectura)"
  {
    u.username + (if u.canEdit.Some? && u.canEdit.value then " (puede editar)" else " (solo lectura)")
  }

  /** `username.charAt(0).toUpperCase()`: nothing for an empty name. */
  function Initial(username: string, upper: char -> string): string {
    if username == [] then "" else upper(username[0])
  }

  datatype Avatar = Avatar(key: string, color: string, title: string, initial: string)

  function AvatarOf(upper: char -> string): ConnectedUser -> Avatar {
    (u: ConnectedUser) => Avatar(u.userId, u.color, Tooltip(u), Initial(u.username, upper))
  }

  /** `connectedUsers.slice(0, 5).map(...)`. */
  function Avatars(users: seq<ConnectedUser>, upper: char -> string): seq<Avatar> {
    Map(users[..if |users| < MaxAvatars then |users| else MaxAvatars], AvatarOf(upper))
  }

  /** The `+k` badge, when there are more users than avatars. */
  function Overflow(users: seq<ConnectedUser>): Option<string> {
    if |users| > MaxAvatars then Some("+" + NatToString(|users| - MaxAvatars)) else None
  }

  /** The count label: the remote users plus oneself. */
  function CountLabel(users: seq<ConnectedUser>): string {
    if |users| == 0 then "Solo tú" else NatToString(|users| + 1) + " usuarios"
  }

  /** At most five avatars, for the first users in roster order; the badge appears exactly when
      some users have no avatar and counts them, so avatars and badge account for everyone. */
  lemma {:induction false} StripSpec(users: seq<ConnectedUser>, upper: char -> string)
    ensures var a := Avatars(users, upper);
      && |a| == (if |users| < 5 then |users| else 5)
      && (forall i :: 0 <= i < |a| ==> a[i].key == users[i].userId && a[i].color == users[i].color
                                        && a[i].title == Tooltip(users[i]))
    ensures Overflow(users).Some? <==> |users| > 5
    ensures Overflow(users).Some? ==>
      Overflow(users).value == "+" + NatToString(|users| - |Avatars(users, upper)|)
  {
    var n := if |users| < 5 then |users| else 5;
    var a := Avatars(users, upper);
    forall i | 0 <= i < |a|
      ensures a[i].key == users[i].userId && a[i].color == users[i].color && a[i].title == Tooltip(users[i])
    {
      assert a[i] == AvatarOf(upper)(users[..n][i]);
    }
  }

  /** "Solo tú" exactly for an empty roster; otherwise the number shown is one more than the
      roster's size, so it is never "1 usuarios". */
  lemma CountLabelSpec(users: seq<ConnectedUser>)
    ensures CountLabel(users) == "Solo tú" <==> users == []
    ensures users != [] ==> CountLabel(users) == NatToString(|users| + 1) + " usuarios"
    ensures users != [] ==> CountLabel(users) != "1 usuarios"
  {
    if users != [] {
      var s := NatToString(|users| + 1);
      var text := s + " usuarios";
      assert CountLabel(users) == text;
      assert text[0] == s[0];
      assert "Solo tú"[0] == 'S';
    }
  }
}
