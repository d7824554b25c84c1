/**
 * The image library page (app/library/page.tsx): the name its download button gives a file,
 * the start of a chat from its message box, and the loading of the image list. Requests,
 * navigation and toasts are not modelled: a reply is an input and an outcome is a value.
 */
module LibraryPage {
  import opened Wrappers
  import opened Text
  import opened Clock12
  import ImageActions
  import UserSlice
  import Sidebar

  /** `ChatGPT Image ${stamp}.png`: the library's download name never depends on the image. */
  function LibraryDownloadName(t: LocalTime): string {
    "ChatGPT Image " + (Stamp(t) + "." + "png")
  }

  /**
   * The library's name is the one the image toolbar means to give an image without a file name,
   * and not the one the toolbar as written gives it.
   */
  lemma LibraryNameIsIntendedDefault(t: LocalTime)
    ensures LibraryDownloadName(t) == ImageActions.DownloadName(None, t)
    ensures AfterLast(LibraryDownloadName(t), '.') == "png"
    ensures LibraryDownloadName(t) != ImageActions.DownloadNameAsWritten(None, t)
  {
    assert ImageActions.Lead(None) + " " == "ChatGPT Image ";
    ImageActions.UnnamedImageSavedAsImage(t);
    ImageActions.DownloadNameEndsWithExtension(None, t);
  }

  /** What the create-conversation endpoint answers: `conversation?._id`, `conversationId` and `id`. */
  datatype CreateReply = CreateReply(nestedId: Option<string>, conversationId: Option<string>, id: Option<string>)

  /** `data.conversation?._id || data.conversationId || data.id`, or the error when all are missing. */
  function ConversationIdOf(reply: CreateReply): (r: Result<string, string>)
    ensures r.Success? <==> Truthy(reply.nestedId) || Truthy(reply.conversationId) || Truthy(reply.id)
    ensures r.Success? ==> r.value != ""
    ensures r.Success? ==> r.value in {reply.nestedId.GetOr(""), reply.conversationId.GetOr(""), reply.id.GetOr("")}
    ensures Truthy(reply.nestedId) ==> r == Success(reply.nestedId.value)
    ensures !Truthy(reply.nestedId) && Truthy(reply.conversationId) ==> r == Success(reply.conversationId.value)
    ensures r.Failure? ==> r.error == "Invalid conversation id"
  {
    if Truthy(reply.nestedId) then Success(reply.nestedId.value)
    else if Truthy(reply.conversationId) then Success(reply.conversationId.value)
    else if Truthy(reply.id) then Success(reply.id.value)
    else Failure("Invalid conversation id")
  }

  /**
   * `handleSendMessage`: a blank message is ignored; otherwise a conversation is created with the
   * message's first 50 characters as its title, and the outcome is the id to open (with the message
   * preloaded) or the error shown. `reply` is None when the endpoint did not answer OK.
   */
  datatype SendOutcome = Ignored | Started(title: string, outcome: Result<string, string>)

  function SendMessage(message: string, reply: Option<CreateReply>): (r: SendOutcome)
    ensures r.Ignored? <==> AllSpace(message)
    ensures r.Started? ==> r.title == Prefix(message, 50) && r.title != "" && StartsWith(message, r.title)
    ensures r.Started? && reply.None? ==> r.outcome == Failure("Failed to create conversation")
    ensures r.Started? && reply.Some? ==> r.outcome == ConversationIdOf(reply.value)
  {
    if Trim(message) == "" then Ignored
    else
      var title := if Prefix(message, 50) != "" then Prefix(message, 50) else "New Chat";
      match reply
      case None => Started(title, Failure("Failed to create conversation"))
      case Some(data) => Started(title, ConversationIdOf(data))
  }

  /** The "New Chat" fallback title is never used: a message that is not blank has a non-empty prefix. */
  lemma FallbackTitleUnused(message: string, reply: Option<CreateReply>)
    requires !AllSpace(message)
    ensures SendMessage(message, reply).title == Prefix(message, 50)
    ensures |SendMessage(message, reply).title| == Min(50, |message|)
  {
  }

  /** One stored image as the images endpoint lists it. */
  datatype ImageRecord = ImageRecord(id: string, userId: string, url: string, publicId: Option<string>,
                                     caption: Option<string>, createdAt: string)

  /** A JSON body: an array of images, some other value, or text that does not parse. */
  datatype Payload = ArrayPayload(items: seq<ImageRecord>) | OtherPayload | Unparsable

  /** The answer to the image-list request, or a request that failed outright. */
  datatype LoadReply = Response(ok: bool, status: int, body: Payload) | NetworkError

  /** The list the page shows after a load: the array from an OK response, else nothing. */
  function LoadedImages(reply: LoadReply): (images: seq<ImageRecord>)
    ensures reply.Response? && reply.ok && reply.body.ArrayPayload? ==> images == reply.body.items
    ensures !(reply.Response? && reply.ok && reply.body.ArrayPayload?) ==> images == []
  {
    match reply
    case NetworkError => []
    case Response(ok, status, body) =>
      if !ok then []
      else if body.ArrayPayload? then body.items
      else []
  }

  /** The image list and its loading flag. */
  class Library {
    var images: Option<seq<ImageRecord>>
    var isLoading: bool

    constructor()
      ensures images == None && isLoading
    {
      images := None;
      isLoading := true;
    }

    /**
     * The load effect for the `tab` query parameter (`'images'` when missing or empty): on any
     * other tab nothing happens; on the images tab the list is set, to nothing on any failure, and
     * the loading flag ends false.
     */
    method Load(tab: Option<string>, reply: LoadReply)
      modifies this
      ensures (if Truthy(tab) then tab.value else "images") != "images" ==>
                images == old(images) && isLoading == old(isLoading)
      ensures (if Truthy(tab) then tab.value else "images") == "images" ==>
                images == Some(LoadedImages(reply)) && !isLoading
    {
      var current := if Truthy(tab) then tab.value else "images";
      if current != "images" {
        return;
      }
      isLoading := true;
      match reply {
        case NetworkError =>
          images := Some([]);
        case Response(ok, status, body) =>
          if !ok {
            // 401 empties the list at once; any other status throws, and the handler empties it
            images := Some([]);
          } else {
            match body {
              case ArrayPayload(items) => images := Some(items);
              case OtherPayload => images := Some([]);
              case Unparsable => images := Some([]);
            }
          }
      }
      isLoading := false;
    }
  }

  /** `value || undefined`: an empty string reads as missing. */
  function Present(value: Option<string>): (r: Option<string>)
    ensures Truthy(r) <==> Truthy(value)
    ensures r.Some? ==> r == value
  {
    if Truthy(value) then value else None
  }

  /** The account the library page hands its sidebar, read from the account store. */
  function AccountOf(s: UserSlice.UserState): Sidebar.Account {
    Sidebar.Account(Present(s.fields.firstName), Present(s.fields.lastName), Present(s.fields.email))
  }

  /** With the store cleared (or never filled), the sidebar shows the name "User" and the initial "U". */
  lemma ClearedStoreShowsDefaults()
    ensures Sidebar.UserName(Some(AccountOf(UserSlice.Initial))) == "User"
    ensures Sidebar.UserInitials(Some(AccountOf(UserSlice.Initial))) == "U"
  {
  }

  /** After `setUser` with both names, the sidebar shows the full name and the two initials. */
  lemma SetUserShowsFullName(p: UserSlice.UserFields)
    requires Truthy(p.firstName) && Truthy(p.lastName)
    ensures Sidebar.UserName(Some(AccountOf(UserSlice.UserState(p, true)))) == p.firstName.value + " " + p.lastName.value
    ensures Sidebar.UserInitials(Some(AccountOf(UserSlice.UserState(p, true)))) == [p.firstName.value[0], p.lastName.value[0]]
  {
  }
}
