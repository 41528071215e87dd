/**
 * The toast provider's state: one message with a type, shown or hidden.
 */
module Toast {
  import opened Js

  datatype ToastType = Success | Error | Info | Warning

  /** The three state cells of the provider. */
  class ToastState {
    var visible: bool
    var message: string
    var kind: ToastType

    /** Hidden, no message, type `info`. */
    constructor ()
      ensures !visible && message == "" && kind == Info
    {
      visible := false;
      message := "";
      kind := Info;
    }

    /** `show(msg, type)`: the message and type replace the previous ones; the type defaults to `info`. */
    method Show(msg: string, t: Option<ToastType>)
      modifies this
      ensures visible && message == msg
      ensures kind == if t.Some? then t.value else Info
    {
      message := msg;
      kind := if t.Some? then t.value else Info;
      visible := true;
    }

    /** `hide`: only the visibility changes; the last message and type stay. */
    method Hide()
      modifies this
      ensures !visible && message == old(message) && kind == old(kind)
    {
      visible := false;
    }
  }

  /** A second toast replaces the first; hiding, once or twice, keeps the text of the last one. */
  method LastToastWins() returns (s: ToastState)
    ensures !s.visible && s.message == "Invalid OTP" && s.kind == Error
  {
    s := new ToastState();
    s.Show("OTP Sent!", Some(Info));
    s.Show("Invalid OTP", Some(Error));
    s.Hide();
    s.Hide();
  }
}
