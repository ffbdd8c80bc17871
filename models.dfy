/**
 * The records exchanged with the backend (complaints, users, statistics,
 * authentication answers), the simplified `Issue` the detail screen shows,
 * and the projection from one to the other.
 */
module Models {
  import opened Wrappers

  /** Latitude and longitude; only ever copied, never computed with. */
  datatype Coordinates = Coordinates(lat: real, lng: real)

  datatype Location = Location(address: string, coordinates: Coordinates)

  datatype ComplaintImage = ComplaintImage(url: string, publicId: string)

  datatype User = User(
    id: string,
    name: string,
    email: string,
    phone: Option<string>,
    role: string,
    createdAt: string)

  datatype Complaint = Complaint(
    id: string,
    title: string,
    description: string,
    category: string,
    location: Location,
    images: seq<ComplaintImage>,
    status: string,
    priority: string,
    userId: Option<User>,
    adminNotes: Option<string>,
    createdAt: string,
    updatedAt: string,
    resolvedAt: Option<string>)

  datatype CategoryCount = CategoryCount(category: string, count: int)

  datatype Stats = Stats(
    totalComplaints: int,
    pending: int,
    inProgress: int,
    resolved: int,
    categoryCounts: seq<CategoryCount>)

  datatype AuthResponse = AuthResponse(id: string, name: string, email: string, role: string, token: string)

  /** What an image-classification call answers. */
  datatype ClassificationResult = ClassificationResult(title: string, description: string, category: string)

  /** The flattened complaint used by the detail screen; `createdAt` is in
      milliseconds since the epoch. */
  datatype Issue = Issue(
    id: string,
    title: string,
    category: string,
    description: string,
    location: string,
    imageUrl: string,
    status: string,
    createdAt: int,
    userId: string,
    latitude: real,
    longitude: real)

  /**
   * The outcome of one HTTP call, as the screens see it: an answer with its
   * success flag, its parsed body (absent when the server sent none) and its
   * status message, or an exception with its message.
   */
  datatype Call<T> = Answered(isSuccessful: bool, body: Option<T>, message: string) | Threw(error: string)
  {
    /** `response.isSuccessful && response.body() != null`. */
    predicate HasBody() {
      Answered? && isSuccessful && body.Some?
    }
  }

  /** `Issue()` with every default argument; `now` stands for the clock. */
  function DefaultIssue(now: int): (r: Issue)
    ensures r.status == "pending" && r.createdAt == now
    ensures r.id == r.title == r.category == r.description == r.location == r.imageUrl == r.userId == ""
    ensures r.latitude == 0.0 && r.longitude == 0.0
  {
    Issue("", "", "", "", "", "", "pending", now, "", 0.0, 0.0)
  }

  /** The url of the first image, or "" when there is none. */
  function FirstImageUrl(images: seq<ComplaintImage>): (r: string)
    ensures images != [] ==> r == images[0].url
    ensures images == [] ==> r == ""
  {
    if images == [] then "" else images[0].url
  }

  /**
   * `Complaint.toIssue()`. `createdAt` is the complaint's date as parsed by
   * the caller (parsing depends on the clock and the locale).
   */
  function ToIssue(c: Complaint, createdAt: int): (r: Issue)
    ensures r.id == c.id && r.title == c.title && r.category == c.category
    ensures r.description == c.description && r.status == c.status
    ensures r.location == c.location.address
    ensures r.imageUrl == (if c.images != [] then c.images[0].url else "")
    ensures r.userId == (if c.userId.Some? then c.userId.value.id else "")
    ensures r.latitude == c.location.coordinates.lat && r.longitude == c.location.coordinates.lng
    ensures r.createdAt == createdAt
  {
    Issue(
      id := c.id,
      title := c.title,
      category := c.category,
      description := c.description,
      location := c.location.address,
      imageUrl := FirstImageUrl(c.images),
      status := c.status,
      createdAt := createdAt,
      userId := if c.userId.Some? then c.userId.value.id else "",
      latitude := c.location.coordinates.lat,
      longitude := c.location.coordinates.lng)
  }

  /** Two complaints that differ only in what the projection drops (priority,
      notes, later images, the rest of the user record, the other dates)
      project to the same issue. */
  lemma ToIssueForgets(c: Complaint, d: Complaint, t: int)
    requires c.id == d.id && c.title == d.title && c.category == d.category
    requires c.description == d.description && c.status == d.status && c.location == d.location
    requires (c.images == []) == (d.images == [])
    requires c.images != [] ==> c.images[0].url == d.images[0].url
    requires c.userId.Some? == d.userId.Some?
    requires c.userId.Some? ==> c.userId.value.id == d.userId.value.id
    ensures ToIssue(c, t) == ToIssue(d, t)
  {
  }
}
