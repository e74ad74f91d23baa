/** Apartment.swift: an apartment as the buyer screens hold it, a reference
    object whose average rating is filled in after construction. */
module Apartments {
  import opened Text
  import opened TimeSlots

  /** What an apartment object holds at one moment. */
  datatype ApartmentData = ApartmentData(
    apartmentId: string,
    sellerId: string,
    locationName: string,
    price: string,
    squareMeters: string,
    numberOfRooms: string,
    timeSlots: Slots,
    averageRating: Option<real>)

  class Apartment {
    var apartmentId: string
    var sellerId: string
    var locationName: string
    var price: string
    var squareMeters: string
    var numberOfRooms: string
    var timeSlots: Slots
    var averageRating: Option<real>

    /** The fields as a value. */
    function Data(): ApartmentData
      reads this
    {
      ApartmentData(apartmentId, sellerId, locationName, price, squareMeters, numberOfRooms,
                    timeSlots, averageRating)
    }

    /** `Apartment.init`: every argument is stored and there is no rating yet. */
    constructor (apartmentId: string, sellerId: string, locationName: string, price: string,
                 squareMeters: string, numberOfRooms: string, timeSlots: Slots)
      ensures Data() == ApartmentData(apartmentId, sellerId, locationName, price, squareMeters,
                                      numberOfRooms, timeSlots, None)
    {
      this.apartmentId := apartmentId;
      this.sellerId := sellerId;
      this.locationName := locationName;
      this.price := price;
      this.squareMeters := squareMeters;
      this.numberOfRooms := numberOfRooms;
      this.timeSlots := timeSlots;
      this.averageRating := None;
    }

    /** `apartment.averageRating = averageRating`: only the rating changes. */
    method SetAverageRating(rating: real)
      modifies this`averageRating
      ensures Data() == old(Data()).(averageRating := Some(rating))
    {
      averageRating := Some(rating);
    }
  }

  /** The values held by a list of apartment objects, in order. */
  function Values(s: seq<Apartment>): (r: seq<ApartmentData>)
    reads set a | a in s
    ensures |r| == |s|
    ensures forall i :: 0 <= i < |s| ==> r[i] == s[i].Data()
  {
    seq(|s|, i reads set a | a in s requires 0 <= i < |s| => s[i].Data())
  }
}
