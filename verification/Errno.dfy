/** Result codes of the transport layer and of the framework that the models return. */
module Errno {
  const DH_AVT_SUCCESS := 0
  const ERR_DH_AVT_INVALID_PARAM := -80001
  const ERR_DH_AVT_INIT_FAILED := -80002
  const ERR_DH_AVT_START_FAILED := -80003
  const ERR_DH_AVT_STOP_FAILED := -80004
  const ERR_DH_AVT_SETUP_FAILED := -80006
  const ERR_DH_AVT_PUSH_DATA_FAILED := -80007
  const ERR_DH_AVT_CREATE_CHANNEL_FAILED := -80010
  const ERR_DH_AVT_CHANNEL_ALREADY_CREATED := -80011
  const ERR_DH_AVT_INVALID_PARAM_VALUE := -81000
  const ERR_DH_AVT_NULL_POINTER := -81010
  const ERR_DH_AVT_SESSION_ERROR := -81011
  const ERR_DH_AVT_PREPARE_FAILED := -81013
  const ERR_DH_AVT_SET_PARAM_FAILED := -81014
  const ERR_DH_AVT_TIME_SYNC_FAILED := -80016
  const ERR_DH_AVT_SHARED_MEMORY_FAILED := -80023
  const ERR_DH_AVT_MASTER_NOT_READY := -80024
  const ERR_DH_AVT_SESSION_HAS_OPENED := -80025

  const DH_FWK_SUCCESS := 0
  const ERR_DH_FWK_PARA_INVALID := -10000
  const ERR_DH_FWK_POINTER_IS_NULL := -10005
  const ERR_DH_FWK_SERVICE_IPC_SEND_REQUEST_FAIL := -10801
  const ERR_DH_FWK_PUBLISH_LISTENER_OVER_SIZE := -11101
}
