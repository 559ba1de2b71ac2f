/** The products page: the status badge of a product and the product-update subscription form. */
module Products {
  import opened Common
  import opened Context

  const ComingSoon := "Coming Soon"
  const InDevelopment := "In Development"
  const ResearchPhase := "Research Phase"

  const GreenBadge := "bg-green-100 text-green-800"
  const YellowBadge := "bg-yellow-100 text-yellow-800"
  const BlueBadge := "bg-blue-100 text-blue-800"
  const GrayBadge := "bg-gray-100 text-gray-800"

  const MissingFields := "Please enter both name and email"
  const TryAgain := "Failed to subscribe. Please try again."

  /** The icon drawn in a status badge. */
  datatype StatusIcon = AlertCircle | Battery | MapPin

  predicate KnownStatus(status: string) {
    status == ComingSoon || status == InDevelopment || status == ResearchPhase
  }

  /** `getStatusColor`: defined for every status; gray for any status it does not know. */
  function StatusColor(status: string): (c: string)
    ensures c in {GreenBadge, YellowBadge, BlueBadge, GrayBadge}
    ensures c == GrayBadge <==> !KnownStatus(status)
    ensures c == GreenBadge <==> status == ComingSoon
    ensures c == YellowBadge <==> status == InDevelopment
    ensures c == BlueBadge <==> status == ResearchPhase
  {
    match status
    case "Coming Soon" => GreenBadge
    case "In Development" => YellowBadge
    case "Research Phase" => BlueBadge
    case _ => GrayBadge
  }

  /** `getStatusIcon`: one distinct icon per known status, none otherwise. */
  function IconFor(status: string): (icon: Option<StatusIcon>)
    ensures icon.None? <==> !KnownStatus(status)
    ensures icon == Some(AlertCircle) <==> status == ComingSoon
    ensures icon == Some(Battery) <==> status == InDevelopment
    ensures icon == Some(MapPin) <==> status == ResearchPhase
  {
    match status
    case "Coming Soon" => Some(AlertCircle)
    case "In Development" => Some(Battery)
    case "Research Phase" => Some(MapPin)
    case _ => None
  }

  /** A badge has an icon exactly when it is not the gray default. */
  lemma IconIffColored(status: string)
    ensures IconFor(status).Some? <==> StatusColor(status) != GrayBadge
  {
  }

  class ProductsPage {
    var email: string
    var name: string
    var subscriptionMessage: Option<Message>
    var isLoading: bool

    constructor ()
      ensures email == "" && name == "" && subscriptionMessage == None && !isLoading
    {
      email, name, subscriptionMessage, isLoading := "", "", None, false;
    }

    /** `handleSubscribe` up to the request: both fields are required, and loading starts
        only for a request that is made. */
    method BeginSubscribe() returns (started: bool)
      modifies this`subscriptionMessage, this`isLoading
      ensures started <==> email != "" && name != ""
      ensures !started ==> subscriptionMessage == Some(Message(MissingFields, Error)) && isLoading == old(isLoading)
      ensures started ==> isLoading && subscriptionMessage == old(subscriptionMessage)
    {
      if email == "" || name == "" {
        subscriptionMessage := Some(Message(MissingFields, Error));
        return false;
      }
      isLoading := true;
      return true;
    }

    /** `handleSubscribe` after the request: the banner follows the result, a throw gives a
        fixed text, the fields are cleared only on success, and loading ends on every path. */
    method FinishSubscribe(outcome: Call<SubscribeResult>)
      modifies this`email, this`name, this`subscriptionMessage, this`isLoading
      ensures !isLoading
      ensures outcome.Threw? ==> subscriptionMessage == Some(Message(TryAgain, Error))
      ensures outcome.Returned? ==> subscriptionMessage == Some(Message(outcome.value.message,
                                      if outcome.value.success then Success else Error))
      ensures outcome.Returned? && outcome.value.success ==> email == "" && name == ""
      ensures !(outcome.Returned? && outcome.value.success) ==> email == old(email) && name == old(name)
    {
      if outcome.Returned? {
        var result := outcome.value;
        subscriptionMessage := Some(Message(result.message, if result.success then Success else Error));
        if result.success {
          email := "";
          name := "";
        }
      } else {
        subscriptionMessage := Some(Message(TryAgain, Error));
      }
      isLoading := false;
    }

    /** The whole handler against the context's `subscribeToProducts`, which never throws. */
    method HandleSubscribe(store: BlogStore, reply: Response<string>) returns (called: bool)
      modifies this`email, this`name, this`subscriptionMessage, this`isLoading
      ensures called <==> old(email) != "" && old(name) != ""
      ensures !called ==> subscriptionMessage == Some(Message(MissingFields, Error)) &&
                          email == old(email) && name == old(name) && isLoading == old(isLoading)
      ensures called ==> !isLoading && subscriptionMessage.Some? &&
                         (subscriptionMessage.value.kind == Success <==> reply.Ok?) &&
                         subscriptionMessage.value.text == SubscriptionResult(reply).message
      ensures called ==> email == (if reply.Ok? then "" else old(email))
      ensures called ==> name == (if reply.Ok? then "" else old(name))
    {
      called := BeginSubscribe();
      if called {
        var result := store.SubscribeToProducts(email, name, reply);
        FinishSubscribe(Returned(result));
      }
    }
  }
}
