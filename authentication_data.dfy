/** What the sign-in form has collected: login, password and the "forget me" choice. */
module AuthenticationModels {
  import opened Wrappers

  /** `AuthenticationData.Memento`; an unset login or password is `None` (`null`). */
  datatype Memento = Memento(login: Option<string>, password: Option<string>, forgotMe: bool)

  class AuthenticationData {
    var login: Option<string>
    var password: Option<string>
    var forgotMe: bool

    constructor ()
      ensures GetMemento() == Memento(None, None, false)
    {
      login := None;
      password := None;
      forgotMe := false;
    }

    /** `SetLogIn`: only the login changes. */
    method SetLogIn(l: string)
      modifies this
      ensures GetMemento() == old(GetMemento()).(login := Some(l))
    {
      login := Some(l);
    }

    /** `SetPassword`: only the password changes. */
    method SetPassword(p: string)
      modifies this
      ensures GetMemento() == old(GetMemento()).(password := Some(p))
    {
      password := Some(p);
    }

    /** Assigning the public `ForgotMe` field. */
    method SetForgotMe(b: bool)
      modifies this
      ensures GetMemento() == old(GetMemento()).(forgotMe := b)
    {
      forgotMe := b;
    }

    /** `GetMemento`: the current values of the three fields. */
    function GetMemento(): (m: Memento)
      reads this
      ensures m.login == login && m.password == password && m.forgotMe == forgotMe
    {
      Memento(login, password, forgotMe)
    }
  }
}
