/** Conversions between the library's send types and LiteNetLib's delivery
    methods (LnlUtility.cs). */
module LnlUtility {
  import opened NetTypes

  /** LiteNetLib's `DeliveryMethod`. */
  datatype LnlDeliveryMethod = ReliableUnordered | Sequenced | ReliableOrdered | ReliableSequenced | Unreliable

  /** `ToLnlDeliveryMethod`: unreliable sends go unreliable, every other send goes
      reliable and ordered. */
  function ToLnlDeliveryMethod(sendType: SendType): (r: LnlDeliveryMethod)
    ensures r == LnlDeliveryMethod.Unreliable <==> sendType == SendType.Unreliable
    ensures r == LnlDeliveryMethod.Unreliable || r == ReliableOrdered
  {
    if sendType == SendType.Unreliable then LnlDeliveryMethod.Unreliable else ReliableOrdered
  }

  /** `ToDeliveryMethod`: only LiteNetLib's unreliable method reads as unreliable;
      every reliable or sequenced one reads as reliable. */
  function ToDeliveryMethod(deliveryMethod: LnlDeliveryMethod): (r: SendType)
    ensures r == SendType.Unreliable <==> deliveryMethod == LnlDeliveryMethod.Unreliable
  {
    if deliveryMethod == LnlDeliveryMethod.Unreliable then SendType.Unreliable else SendType.Reliable
  }

  /** Sending with a send type and receiving it back yields the same send type. */
  lemma SendTypeRoundTrip(sendType: SendType)
    ensures ToDeliveryMethod(ToLnlDeliveryMethod(sendType)) == sendType
  {
  }

  /** The other way round only the two methods the library sends with survive: a
      sequenced or unordered method comes back reliable and ordered. */
  lemma DeliveryMethodRoundTrip(deliveryMethod: LnlDeliveryMethod)
    ensures ToLnlDeliveryMethod(ToDeliveryMethod(deliveryMethod)) == deliveryMethod <==>
            deliveryMethod == LnlDeliveryMethod.Unreliable || deliveryMethod == ReliableOrdered
  {
  }
}

/** The same conversions for the library's older `DeliveryMethod` enumeration
    (LiteNetLibExtensions.cs). */
module LiteNetLibExtensions {
  import NetTypes
  import opened LnlUtility

  /** The library's own `DeliveryMethod`. */
  datatype DeliveryMethod = Reliable | Unreliable

  /** `ToLnlDeliveryMethod`: unreliable stays unreliable, everything else becomes
      reliable and ordered. */
  function ToLnlDeliveryMethod(deliveryMethod: DeliveryMethod): (r: LnlDeliveryMethod)
    ensures r == LnlDeliveryMethod.Unreliable <==> deliveryMethod == DeliveryMethod.Unreliable
    ensures r == LnlDeliveryMethod.Unreliable || r == ReliableOrdered
  {
    if deliveryMethod == DeliveryMethod.Unreliable then LnlDeliveryMethod.Unreliable else ReliableOrdered
  }

  /** `ToDeliveryMethod`: LiteNetLib's unreliable method reads as unreliable, every
      other one as reliable. */
  function ToDeliveryMethod(deliveryMethod: LnlDeliveryMethod): (r: DeliveryMethod)
    ensures r == DeliveryMethod.Unreliable <==> deliveryMethod == LnlDeliveryMethod.Unreliable
  {
    if deliveryMethod == LnlDeliveryMethod.Unreliable then DeliveryMethod.Unreliable else DeliveryMethod.Reliable
  }

  /** Own → LiteNetLib → own is the identity. */
  lemma DeliveryMethodRoundTrip(deliveryMethod: DeliveryMethod)
    ensures ToDeliveryMethod(ToLnlDeliveryMethod(deliveryMethod)) == deliveryMethod
  {
  }

  /** Both conversion pairs agree: converting through either enumeration picks the
      same LiteNetLib method for the same reliability. */
  lemma AgreesWithSendTypes(deliveryMethod: DeliveryMethod)
    ensures ToLnlDeliveryMethod(deliveryMethod) ==
            LnlUtility.ToLnlDeliveryMethod(if deliveryMethod == DeliveryMethod.Unreliable then NetTypes.SendType.Unreliable
                                            else NetTypes.SendType.Reliable)
  {
  }
}
