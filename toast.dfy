/** The notification helper (src/hooks/use-toast.ts): the text shown and
    whether it goes out as an error or as a success notice. The call into
    the notification library is represented by its two arguments. */
module Toast {
  import opened Common

  datatype ToastVariant = Default | Destructive

  /** `ToastProps`: every field may be missing. */
  datatype ToastProps = ToastProps(title: Option<string>, description: Option<string>, variant: Option<ToastVariant>)

  /** Which notification call is made. */
  datatype Channel = ErrorChannel | SuccessChannel

  /** The shown text: title and description on two lines when both are
      non-empty, otherwise whichever is non-empty, otherwise "". */
  function ToastMessage(title: Option<string>, description: Option<string>): (r: string)
    ensures Truthy(title) && Truthy(description) ==> r == title.value + "\n" + description.value
    ensures Truthy(title) && !Truthy(description) ==> r == title.value
    ensures !Truthy(title) && Truthy(description) ==> r == description.value
    ensures !Truthy(title) && !Truthy(description) ==> r == ""
  {
    var message := if Truthy(title) then title.value else if Truthy(description) then description.value else "";
    if Truthy(title) && Truthy(description) then title.value + "\n" + description.value else message
  }

  /** A missing variant means "default"; only "destructive" is an error. */
  function ToastChannel(variant: Option<ToastVariant>): (c: Channel)
    ensures c == ErrorChannel <==> variant == Some(Destructive)
  {
    var v := OrElse(variant, Default);
    if v == Destructive then ErrorChannel else SuccessChannel
  }

  /** `toast(props)`: the call made and the text passed to it. An error
      notice is raised only for the destructive variant, and the text is
      empty only when the props carry neither a title nor a description. */
  function ShowToast(props: ToastProps): (r: (Channel, string))
    ensures r.0 == ErrorChannel <==> props.variant == Some(Destructive)
    ensures r.1 == "" <==> !Truthy(props.title) && !Truthy(props.description)
    ensures Truthy(props.title) ==> IsPrefix(props.title.value, r.1)
  {
    (ToastChannel(props.variant), ToastMessage(props.title, props.description))
  }

  /** The text is empty exactly when neither part is non-empty, and it
      always begins with a non-empty title. */
  lemma ToastMessageShape(title: Option<string>, description: Option<string>)
    ensures ToastMessage(title, description) == "" <==> !Truthy(title) && !Truthy(description)
    ensures Truthy(title) ==> IsPrefix(title.value, ToastMessage(title, description))
  {
  }
}
