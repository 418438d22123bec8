/** Two identical `getDeliveryDate` calls against an empty cache pool, with a
    backend that answers 200 and a message codec whose printed form parses. */
module Scenario {
  import opened Wrappers
  import opened Values
  import opened Http
  import opened Cache
  import opened RequestBuilders
  import opened DeliveryDates

  /** The first call reaches the backend once and fills the cache; the second
      is answered from the cache without reaching the backend, and both
      return the same entity. */
  method RepeatedDeliveryDateCall() returns (firstCalls: nat, secondCalls: nat, sameAnswer: bool)
    ensures firstCalls == 1 && secondCalls == 0 && sameAnswer
  {
    var ok := HttpResponse(200, map[], "{\"DeliveryDate\":\"30-06-2016\"}");
    var client := new HttpClient((n: nat, request: HttpRequest) => Success(ok));
    var pool := new CacheItemPool(map[], (key: string) => |key| <= 64);
    assert !HasReservedCharacter("GetDeliveryDate") by {
      forall i | 0 <= i < |"GetDeliveryDate"| ensures !IsReserved("GetDeliveryDate"[i]) {}
    }
    var messages := MessageCodec(
      (s: string) => Success(HttpResponse(200, map[], s)),
      (r: HttpResponse) => r.body);
    var processor := ResponseProcessor(
      (op: Operation, r: HttpResponse) => Success(Entity("GetDeliveryDateResponse", map["DeliveryDate" := JString(r.body)])));
    var service := new DeliveryDateService(
      HiddenString("key"), true, client, RequestFactory(0), StreamFactory(0), pool,
      (e: Entity) => e.className, messages,
      (s: Settings, op: Operation, e: Entity) => Success(HttpRequest("GET", "delivery-date", map[], "")),
      processor);
    var request := Entity("GetDeliveryDate", map[
      "Barcode" := JString("3S9283920392033"), "DeliveryDate" := JString("29-06-2016")]);

    var first := service.GetDeliveryDate(request);
    firstCalls := |client.sent|;
    assert pool.items == map["GetDeliveryDate" := ok.body];
    var second := service.GetDeliveryDate(request);
    secondCalls := |client.sent| - firstCalls;
    sameAnswer := first == second;
  }
}
