/** A device permission request and its state (hooks/use-permission.ts). */
module Permission {
  import opened Js

  datatype PermissionStatus = Granted | Denied | Undetermined | Loading

  /** How the awaited requester ended: with a response carrying `granted`, or by throwing. */
  datatype RequestResult = Answered(granted: bool) | Threw

  /** The hook's optional messages for the denied alert. */
  datatype Options = Options(deniedMessage: Field, deniedTitle: Field)

  datatype Alert = Alert(title: string, message: string)

  const DEFAULT_TITLE: string := "Permission Required"
  const DEFAULT_MESSAGE: string :=
    "This feature requires permission to access your device's capabilities. Please enable it in settings."

  /** The alert shown on a denial: the options' texts, or the defaults where they are missing or empty. */
  function DeniedAlert(options: Options): (a: Alert)
    ensures !Truthy(options.deniedTitle) ==> a.title == DEFAULT_TITLE
    ensures !Truthy(options.deniedMessage) ==> a.message == DEFAULT_MESSAGE
    ensures Truthy(options.deniedTitle) ==> a.title == options.deniedTitle.s
    ensures Truthy(options.deniedMessage) ==> a.message == options.deniedMessage.s
    ensures a.title != "" && a.message != ""
  {
    Alert(OrDefault(options.deniedTitle, DEFAULT_TITLE), OrDefault(options.deniedMessage, DEFAULT_MESSAGE))
  }

  class PermissionState {
    var status: PermissionStatus
    var isLoading: bool

    constructor ()
      ensures status == Undetermined && !isLoading
    {
      status, isLoading := Undetermined, false;
    }

    /** `requestPermission` up to the awaited requester: loading, status untouched. */
    method BeginRequest()
      modifies this
      ensures isLoading && status == old(status)
    {
      isLoading := true;
    }

    /** `requestPermission` after the requester settled; `alert` is what the hook shows, if anything. */
    method FinishRequest(result: RequestResult, options: Options) returns (granted: bool, alert: Option<Alert>)
      modifies this
      ensures granted <==> result == Answered(true)
      ensures status == (if granted then Granted else Denied)
      ensures !isLoading
      ensures alert == (if result == Answered(false) then Some(DeniedAlert(options)) else None)
    {
      alert := None;
      if result.Answered? && result.granted {
        status := Granted;
        granted := true;
      } else if result.Answered? {
        status := Denied;
        alert := Some(DeniedAlert(options));
        granted := false;
      } else {
        status := Denied;
        granted := false;
      }
      isLoading := false;
    }
  }

  /** A first request that the user denies: loading while it waits, then denied with the default alert. */
  method DenyFirstRequest() returns (waiting: bool, granted: bool, status: PermissionStatus, loading: bool, alert: Option<Alert>)
    ensures waiting && !granted && status == Denied && !loading
    ensures alert == Some(Alert(DEFAULT_TITLE, DEFAULT_MESSAGE))
  {
    var permission := new PermissionState();
    permission.BeginRequest();
    waiting := permission.isLoading;
    granted, alert := permission.FinishRequest(Answered(false), Options(Absent, Absent));
    status, loading := permission.status, permission.isLoading;
  }
}
