/** The execution screen of a service order: the evidence photos (added
    from picked files, removed one at a time) and the finalize button. */
module ExecuteServiceOrder {
  import opened Wrappers
  import opened Types
  import opened Navigation

  /** The two placeholder photos every execution screen starts with. */
  const InitialImages: seq<string> := [
    "https://picsum.photos/id/1062/200/200",
    "https://picsum.photos/id/1070/200/200"]

  /** `images.filter((_, index) => index !== k)`: the element at `k` removed,
      or nothing removed when `k` is not an index. */
  function RemovedAt(s: seq<string>, k: int): (r: seq<string>)
    ensures 0 <= k < |s| ==> |r| == |s| - 1
    ensures 0 <= k < |s| ==> forall j :: 0 <= j < k ==> r[j] == s[j]
    ensures 0 <= k < |s| ==> forall j :: k <= j < |r| ==> r[j] == s[j + 1]
    ensures !(0 <= k < |s|) ==> r == s
  {
    if 0 <= k < |s| then s[..k] + s[k + 1..] else s
  }

  /** The index filter, element by element. */
  method FilterOutIndex(s: seq<string>, k: int) returns (r: seq<string>)
    ensures r == RemovedAt(s, k)
  {
    r := [];
    var i := 0;
    while i < |s|
      invariant 0 <= i <= |s|
      invariant r == if 0 <= k < i then s[..k] + s[k + 1..i] else s[..i]
    {
      if i != k {
        r := r + [s[i]];
      }
      i := i + 1;
    }
    assert s[..|s|] == s;
  }

  class ExecuteServiceOrderScreen {
    const serviceOrders: seq<ServiceOrder>
    const serviceOrderId: Option<string>
    var images: seq<string>

    constructor (serviceOrders: seq<ServiceOrder>, serviceOrderId: Option<string>)
      ensures this.serviceOrders == serviceOrders && this.serviceOrderId == serviceOrderId
      ensures images == InitialImages
    {
      this.serviceOrders := serviceOrders;
      this.serviceOrderId := serviceOrderId;
      images := InitialImages;
    }

    /** `serviceOrders.find(o => o.id === serviceOrderId)` */
    function Order(): Option<ServiceOrder>
    {
      FindById(serviceOrders, OrderId, serviceOrderId)
    }

    /** `handleImageUpload`: `urls` are the object URLs of the picked files, in
        file order; None stands for an event without a file list. */
    method HandleImageUpload(urls: Option<seq<string>>)
      modifies this
      ensures urls.None? ==> images == old(images)
      ensures urls.Some? ==> images == old(images) + urls.value
    {
      if urls.Some? {
        images := images + urls.value;
      }
    }

    /** `removeImage(k)` */
    method RemoveImage(k: int)
      modifies this
      ensures images == RemovedAt(old(images), k)
    {
      images := FilterOutIndex(images, k);
    }

    /** `handleFinalize`: shows an alert and pushes the list screen; nothing is
        popped, so the execution screen stays in the history. */
    method HandleFinalize(app: App)
      requires app.Valid()
      modifies app
      ensures app.Valid()
      ensures app.navigationStack == Pushed(old(app.navigationStack), Frame(ServiceOrderList, None))
      ensures app.isDarkMode == old(app.isDarkMode)
    {
      app.Navigate(ServiceOrderList, None);
    }

    /** `if (!order) return null`: the screen renders nothing exactly when
        the route has no id or the id matches no order. */
    predicate RendersNothing()
      ensures RendersNothing() <==>
        serviceOrderId.None? || forall i :: 0 <= i < |serviceOrders| ==> serviceOrders[i].id != serviceOrderId.value
    {
      Order().None?
    }
  }

  /** The header's back arrow. */
  function BackEffect(): Effect { Pop }

  /** The back arrow leaves the execution screen for the screen that opened
      it, with that screen's stack exactly as it was. */
  lemma BackReturnsToOpener(stack: seq<Frame>, id: string)
    requires |stack| >= 1
    ensures Apply(Pushed(stack, Frame(ExecuteServiceOrder, OrderParams(id))), BackEffect()) == stack
  {
    PopAfterPush(stack, Frame(ExecuteServiceOrder, OrderParams(id)));
  }

  /** An upload followed by removing the first new photo leaves the old photos
      and the remaining new ones, in order. */
  method UploadThenRemove(screen: ExecuteServiceOrderScreen, urls: seq<string>)
    requires |urls| > 0
    modifies screen
    ensures screen.images == old(screen.images) + urls[1..]
  {
    var n := |screen.images|;
    screen.HandleImageUpload(Some(urls));
    screen.RemoveImage(n);
    assert (old(screen.images) + urls)[..n] == old(screen.images);
    assert (old(screen.images) + urls)[n + 1..] == urls[1..];
  }
}
