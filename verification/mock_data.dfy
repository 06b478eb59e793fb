/** The mobile screens' catalogue (src/utils/mockData.ts): its own product
    record with capitalised categories and statuses, a rounded distance, and
    the six built-in listings annotated with their distance from a viewer. */
module MockData {
  import opened Wrappers
  import Domain

  datatype MobileCategory = Organic | Regular

  datatype ListingStatus = Pending | Verified | Sold | Rejected

  datatype GeoPoint = GeoPoint(latitude: real, longitude: real, address: string)

  /** A mobile listing; `distance` is absent until it is computed for a viewer. */
  datatype MobileProduct = MobileProduct(
    id: string,
    name: string,
    category: MobileCategory,
    quantity: int,
    price: int,
    description: string,
    image: string,
    farmerId: string,
    farmerName: string,
    location: GeoPoint,
    status: ListingStatus,
    distance: Option<int>,
    rating: real,
    uploadDate: string)

  const MumbaiPoint := GeoPoint(19.0760, 72.8777, "Mumbai, Maharashtra")
  const ChandigarhPoint := GeoPoint(30.7333, 76.7794, "Chandigarh, Punjab")
  const JaipurPoint := GeoPoint(26.9124, 75.7873, "Jaipur, Rajasthan")
  const AhmedabadPoint := GeoPoint(23.0225, 72.5714, "Ahmedabad, Gujarat")

  /** The six built-in listings, in order; none carries a distance yet. */
  const MockProducts: seq<MobileProduct> := [
    MobileProduct("p1", "Fresh Tomatoes", Organic, 50, 45,
      "Fresh organic tomatoes grown without pesticides. Rich in vitamins and perfect for salads.",
      "https://images.unsplash.com/photo-1745791562822-7ac21012bbb2?w=400", "f1", "Ramesh Kumar",
      ChandigarhPoint, Verified, None, 4.5, "2025-10-20"),
    MobileProduct("p2", "Basmati Rice", Regular, 200, 120,
      "Premium quality basmati rice from Punjab. Aged for perfect aroma and taste.",
      "https://images.unsplash.com/photo-1595360584848-6404da6fe097?w=400", "f2", "Suresh Patel",
      ChandigarhPoint, Verified, None, 4.8, "2025-10-19"),
    MobileProduct("p3", "Organic Wheat", Organic, 500, 35,
      "Certified organic wheat flour, stone ground for maximum nutrition.",
      "https://images.unsplash.com/photo-1595360584848-6404da6fe097?w=400", "f3", "Vijay Singh",
      JaipurPoint, Verified, None, 4.6, "2025-10-18"),
    MobileProduct("p4", "Fresh Potatoes", Regular, 300, 25,
      "Farm fresh potatoes, perfect for all your cooking needs.",
      "https://images.unsplash.com/photo-1665315302321-46989ca7829a?w=400", "f4", "Anil Sharma",
      AhmedabadPoint, Pending, None, 4.2, "2025-10-25"),
    MobileProduct("p5", "Organic Onions", Organic, 150, 40,
      "Organic red onions, grown with natural fertilizers.",
      "https://images.unsplash.com/photo-1665315302321-46989ca7829a?w=400", "f5", "Mohan Das",
      MumbaiPoint, Verified, None, 4.7, "2025-10-22"),
    MobileProduct("p6", "Green Chillies", Organic, 25, 80,
      "Fresh organic green chillies, perfect spice level.",
      "https://images.unsplash.com/photo-1665315302321-46989ca7829a?w=400", "f1", "Ramesh Kumar",
      ChandigarhPoint, Verified, None, 4.4, "2025-10-21")
  ]

  /** `calculateDistance`: the haversine distance in km, rounded to the
      nearest whole number (halves up). */
  function CalculateDistance(hav: Domain.Haversine, lat1: real, lon1: real, lat2: real, lon2: real): (d: int)
    ensures d as real - 0.5 <= hav(lat1, lon1, lat2, lon2) < d as real + 0.5
  {
    Domain.RoundHalfUp(hav(lat1, lon1, lat2, lon2))
  }

  /** The `Math` functions the haversine formula calls. Floating-point
      trigonometry is not modelled, so they are parameters. */
  datatype MathLib = MathLib(sin: real -> real, cos: real -> real, sqrt: real -> real, atan2: (real, real) -> real)

  const EarthRadiusKm := 6371.0
  const Pi := 3.141592653589793

  function Deg2Rad(deg: real): real
  {
    deg * (Pi / 180.0)
  }

  /** The haversine formula of `calculateDistance`, before rounding: the
      great-circle distance in km on a sphere of the earth's radius. */
  function HaversineKm(m: MathLib, lat1: real, lon1: real, lat2: real, lon2: real): real
  {
    var dLat := Deg2Rad(lat2 - lat1);
    var dLon := Deg2Rad(lon2 - lon1);
    var a := m.sin(dLat / 2.0) * m.sin(dLat / 2.0) +
             m.cos(Deg2Rad(lat1)) * m.cos(Deg2Rad(lat2)) * m.sin(dLon / 2.0) * m.sin(dLon / 2.0);
    var c := 2.0 * m.atan2(m.sqrt(a), m.sqrt(1.0 - a));
    EarthRadiusKm * c
  }

  /** The formula as the distance parameter the screens take. */
  function HaversineOf(m: MathLib): Domain.Haversine
  {
    (lat1: real, lon1: real, lat2: real, lon2: real) => HaversineKm(m, lat1, lon1, lat2, lon2)
  }

  /** A point is 0 km from itself: both differences are zero, so the
      formula's `a` and then `c` are zero, given only that sin 0 = 0,
      sqrt 0 = 0, sqrt 1 = 1 and atan2(0, 1) = 0. */
  lemma SelfDistanceIsZero(m: MathLib, lat: real, lon: real)
    requires m.sin(0.0) == 0.0 && m.sqrt(0.0) == 0.0 && m.sqrt(1.0) == 1.0 && m.atan2(0.0, 1.0) == 0.0
    ensures CalculateDistance(HaversineOf(m), lat, lon, lat, lon) == 0
  {
    assert Deg2Rad(lat - lat) / 2.0 == 0.0 && Deg2Rad(lon - lon) / 2.0 == 0.0;
    assert HaversineKm(m, lat, lon, lat, lon) == 0.0;
  }

  /** The listing annotated with its distance from the viewer. */
  function WithDistance(hav: Domain.Haversine, latitude: real, longitude: real, p: MobileProduct): MobileProduct
  {
    p.(distance := Some(CalculateDistance(hav, latitude, longitude, p.location.latitude, p.location.longitude)))
  }

  /** `getProductsWithDistance` over a catalogue: one entry per listing in the
      same order, each equal to its listing but for the distance, which is the
      rounded distance from the viewer. */
  function ProductsWithDistance(catalogue: seq<MobileProduct>, hav: Domain.Haversine, latitude: real, longitude: real)
    : (r: seq<MobileProduct>)
    ensures |r| == |catalogue|
    ensures forall i :: 0 <= i < |r| ==> r[i].(distance := catalogue[i].distance) == catalogue[i]
    ensures forall i :: 0 <= i < |r| ==>
      r[i].distance == Some(CalculateDistance(hav, latitude, longitude,
                                              catalogue[i].location.latitude, catalogue[i].location.longitude))
    decreases |catalogue|
  {
    if catalogue == [] then []
    else [WithDistance(hav, latitude, longitude, catalogue[0])] + ProductsWithDistance(catalogue[1..], hav, latitude, longitude)
  }

  /** `getProductsWithDistance(userLocation)`: the built-in catalogue. */
  function GetProductsWithDistance(hav: Domain.Haversine, latitude: real, longitude: real): (r: seq<MobileProduct>)
    ensures |r| == |MockProducts|
    ensures forall i :: 0 <= i < |r| ==>
      r[i].(distance := MockProducts[i].distance) == MockProducts[i] && r[i].distance.Some?
  {
    ProductsWithDistance(MockProducts, hav, latitude, longitude)
  }
}
