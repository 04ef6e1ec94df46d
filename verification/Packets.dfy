/** MQTT control packets, as the V3.1.1 codec and the session logic see them. */
module Packets {
  import opened Bytes

  const V311: byte := 4
  const V5: byte := 5

  const CTRL_CONN: byte := 1
  const CTRL_CONN_ACK: byte := 2
  const CTRL_PUBLISH: byte := 3
  const CTRL_PUB_ACK: byte := 4
  const CTRL_PUB_RECV: byte := 5
  const CTRL_PUB_REL: byte := 6
  const CTRL_PUB_COMP: byte := 7
  const CTRL_SUBSCRIBE: byte := 8
  const CTRL_SUB_ACK: byte := 9
  const CTRL_UN_SUB: byte := 10
  const CTRL_UN_SUB_ACK: byte := 11
  const CTRL_PING_REQ: byte := 12
  const CTRL_PING_RESP: byte := 13
  const CTRL_DIS_CONN: byte := 14
  const CTRL_AUTH: byte := 15

  datatype Topic = Topic(name: bytes, qos: byte)

  datatype Packet =
    | Connect(protoName: bytes, cleanSession: bool, isWill: bool, willQos: byte, willRetain: bool,
              keepalive: u16, clientId: bytes, willTopic: bytes, willMessage: bytes,
              username: bytes, password: bytes)
    | ConnAck(present: bool, code: byte)
    | Publish(isDup: bool, qos: byte, isRetain: bool, topicName: bytes, packetId: u16, payload: bytes)
    | PubAck(packetId: u16)
    | PubRecv(packetId: u16)
    | PubRel(packetId: u16)
    | PubComp(packetId: u16)
    | Subscribe(packetId: u16, topics: seq<Topic>)
    | SubAck(packetId: u16, codes: bytes)
    | Unsub(packetId: u16, topicNames: seq<bytes>)
    | UnsubAck(packetId: u16)
    | PingReq
    | PingResp
    | Disconnect
    | Auth(code: byte)
}
